/**
 * The field accumulator: `WithFields`, `WithField`, `FieldsFromContext`
 * (sugarzero.go and zerolog_logger.go hold identical copies).
 *
 * Specification functions (`Extended`, `FieldAdded`, `FieldMap`) say what
 * each operation yields; the methods of the same names as in Go run the
 * source's loops and are proved equal to them.
 */
module Fields {
  import opened Common
  import opened Carrier

  /** A pair survives only when its key is non-empty text. */
  predicate IsFieldKey(v: Val)
  {
    v.S? && v.s != ""
  }

  /** The key under which flattening files a value: `key, _ := flat[i].(string)` reads non-text as "". */
  function KeyText(v: Val): string
  {
    if v.S? then v.s else ""
  }

  /** A stored list: alternating keys and values, every key non-empty text. */
  ghost predicate WellFormed(flat: seq<Val>)
  {
    && |flat| % 2 == 0
    && forall i :: 0 <= i < |flat| && i % 2 == 0 ==> IsFieldKey(flat[i])
  }

  /** The arguments with an unpaired last one dropped: the longest even-length prefix. */
  function Paired(kv: seq<Val>): (r: seq<Val>)
    ensures |r| % 2 == 0 && |r| <= |kv| && r == kv[..|r|]
    ensures |kv| % 2 == 0 ==> r == kv
    ensures |kv| % 2 != 0 ==> |r| == |kv| - 1
  {
    if |kv| % 2 != 0 then kv[..|kv| - 1] else kv
  }

  /** The pairs of an even-length argument list whose key survives, in their original order. */
  function KeptPairs(kv: seq<Val>): seq<Val>
    requires |kv| % 2 == 0
    decreases |kv|
  {
    if kv == [] then []
    else (if IsFieldKey(kv[0]) then [kv[0], kv[1]] else []) + KeptPairs(kv[2..])
  }

  /**
   * What `WithFields(ctx, keyvals...)` returns: the (nil-substituted) context
   * when no pair survives, else a derived context whose list is the old list
   * followed by the surviving pairs. The handle slot is never touched.
   */
  function Extended<L>(ctx: Context<L>, kv: seq<Val>): (r: Context<L>)
    ensures r.Ctx? && r.logger == OrBackground(ctx).logger
    ensures FlattenedFields(r) == FlattenedFields(ctx) + KeptPairs(Paired(kv))
  {
    var base := OrBackground(ctx);
    var kept := KeptPairs(Paired(kv));
    if kept == [] then base
    else base.(fields := Some(FlattenedFields(base) + kept))
  }

  /** What `WithField(ctx, key, value)` returns: the argument itself for an empty key. */
  function FieldAdded<L>(ctx: Context<L>, key: string, value: Val): (r: Context<L>)
    ensures key == "" ==> r == ctx
    ensures key != "" ==> FlattenedFields(r) == FlattenedFields(ctx) + [S(key), value]
  {
    if key == "" then ctx
    else
      SinglePairKept(key, value);
      Extended(ctx, [S(key), value])
  }

  lemma SinglePairKept(key: string, value: Val)
    requires key != ""
    ensures KeptPairs([S(key), value]) == [S(key), value]
  {
    assert [S(key), value][2..] == [];
  }

  /** The key-to-value lookup a flat list stands for; a later pair overrides an earlier one. */
  function Flatten(flat: seq<Val>): map<string, Val>
    decreases |flat|
  {
    if |flat| < 2 then map[]
    else map[KeyText(flat[0]) := flat[1]] + Flatten(flat[2..])
  }

  /** What `FieldsFromContext` returns: absent (Go's nil map) when no fields are attached. */
  function FieldMap<L>(ctx: Context<L>): Option<map<string, Val>>
  {
    var flat := FlattenedFields(ctx);
    if flat == [] then None else Some(Flatten(flat))
  }

  // ---------------------------------------------------------------------
  // The operations as the source runs them

  /** `WithFields`: drop an unpaired last argument, keep the pairs with a valid key, append after the existing list. */
  method WithFields<L>(ctx: Context<L>, kv: seq<Val>) returns (r: Context<L>)
    ensures r == Extended(ctx, kv)
  {
    var base := OrBackground(ctx);
    if |kv| == 0 {
      assert KeptPairs(Paired(kv)) == [];
      return base;
    }
    var flat := CollectPairs(kv);
    if |flat| == 0 {
      return base;
    }
    var existing := FlattenedFields(base);
    if |existing| > 0 {
      flat := existing + flat;
    } else {
      assert flat == existing + flat;
    }
    r := base.(fields := Some(flat));
  }

  /** The pair-collecting loop of `WithFields`, into a freshly built list. */
  method CollectPairs(kv: seq<Val>) returns (flat: seq<Val>)
    ensures flat == KeptPairs(Paired(kv))
  {
    var keyvals := kv;
    if |keyvals| % 2 != 0 {
      keyvals := keyvals[..|keyvals| - 1];
    }
    assert keyvals == Paired(kv);
    flat := [];
    var i := 0;
    while i < |keyvals|
      invariant 0 <= i <= |keyvals| && i % 2 == 0
      invariant flat + KeptPairs(keyvals[i..]) == KeptPairs(keyvals)
    {
      KeptPairsStep(keyvals, i);
      if IsFieldKey(keyvals[i]) {
        flat := flat + [keyvals[i], keyvals[i + 1]];
      }
      i := i + 2;
    }
    assert keyvals[i..] == [];
  }

  lemma KeptPairsStep(kv: seq<Val>, i: nat)
    requires |kv| % 2 == 0 && i % 2 == 0 && i < |kv|
    ensures KeptPairs(kv[i..]) == (if IsFieldKey(kv[i]) then [kv[i], kv[i + 1]] else []) + KeptPairs(kv[i + 2..])
  {
    assert kv[i..][2..] == kv[i + 2..];
  }

  /** `WithField`: an empty key returns the argument unchanged, else one pair is added. */
  method WithField<L>(ctx: Context<L>, key: string, value: Val) returns (r: Context<L>)
    ensures r == FieldAdded(ctx, key, value)
  {
    if key == "" {
      return ctx;
    }
    r := WithFields(ctx, [S(key), value]);
  }

  /** `FieldsFromContext` (`fieldsFromContext` in loggerv2): nil when nothing is attached, else the flattened map. */
  method FieldsFromContext<L>(ctx: Context<L>) returns (fields: Option<map<string, Val>>)
    ensures fields == FieldMap(ctx)
  {
    var flat := FlattenedFields(ctx);
    if |flat| == 0 {
      return None;
    }
    var m: map<string, Val> := map[];
    var i := 0;
    assert flat[i..] == flat;
    while i + 1 < |flat|
      invariant 0 <= i <= |flat|
      invariant m + Flatten(flat[i..]) == Flatten(flat)
    {
      var key := KeyText(flat[i]);
      assert flat[i..][2..] == flat[i + 2..];
      m := m[key := flat[i + 1]];
      i := i + 2;
    }
    assert Flatten(flat[i..]) == map[];
    assert m + map[] == m;
    fields := Some(m);
  }

  // ---------------------------------------------------------------------
  // Properties of the accumulator

  /** Every list the accumulator stores is well formed. */
  lemma {:induction false} KeptPairsWellFormed(kv: seq<Val>)
    requires |kv| % 2 == 0
    ensures WellFormed(KeptPairs(kv))
  {
    if kv != [] {
      KeptPairsWellFormed(kv[2..]);
      var head := if IsFieldKey(kv[0]) then [kv[0], kv[1]] else [];
      var rest := KeptPairs(kv[2..]);
      assert KeptPairs(kv) == head + rest;
      forall i | 0 <= i < |head + rest| && i % 2 == 0
        ensures IsFieldKey((head + rest)[i])
      {
        if i >= |head| {
          assert (head + rest)[i] == rest[i - |head|];
        }
      }
    }
  }

  /** Nothing survives exactly when no key position holds a valid key. */
  lemma {:induction false} KeptPairsEmpty(kv: seq<Val>)
    requires |kv| % 2 == 0
    ensures KeptPairs(kv) == [] <==> forall i :: 0 <= i < |kv| && i % 2 == 0 ==> !IsFieldKey(kv[i])
  {
    if kv != [] {
      KeptPairsEmpty(kv[2..]);
      if forall i :: 0 <= i < |kv| && i % 2 == 0 ==> !IsFieldKey(kv[i]) {
        forall j | 0 <= j < |kv[2..]| && j % 2 == 0
          ensures !IsFieldKey(kv[2..][j])
        {
          assert kv[2..][j] == kv[j + 2];
        }
      } else {
        var i :| 0 <= i < |kv| && i % 2 == 0 && IsFieldKey(kv[i]);
        if i >= 2 {
          assert kv[2..][i - 2] == kv[i];
        }
      }
    }
  }

  /** Concatenating lists unions their lookups, the second one winning. */
  lemma {:induction false} FlattenAppend(a: seq<Val>, b: seq<Val>)
    requires |a| % 2 == 0
    ensures Flatten(a + b) == Flatten(a) + Flatten(b)
    decreases |a|
  {
    if a == [] {
      assert a + b == b;
    } else {
      assert (a + b)[2..] == a[2..] + b;
      FlattenAppend(a[2..], b);
    }
  }

  /** The keys of the lookup are exactly the keys at complete pairs. */
  lemma {:induction false} FlattenKeys(flat: seq<Val>, k: string)
    ensures k in Flatten(flat) <==> exists i :: 0 <= i && i + 1 < |flat| && i % 2 == 0 && KeyText(flat[i]) == k
    decreases |flat|
  {
    if |flat| >= 2 {
      FlattenKeys(flat[2..], k);
      if k in Flatten(flat[2..]) {
        var j :| 0 <= j && j + 1 < |flat[2..]| && j % 2 == 0 && KeyText(flat[2..][j]) == k;
        assert KeyText(flat[j + 2]) == k;
      }
      if exists i :: 0 <= i && i + 1 < |flat| && i % 2 == 0 && KeyText(flat[i]) == k {
        var i :| 0 <= i && i + 1 < |flat| && i % 2 == 0 && KeyText(flat[i]) == k;
        if i >= 2 {
          assert KeyText(flat[2..][i - 2]) == k;
        }
      }
    }
  }

  /** Last write wins: a key maps to the value of its last complete pair. */
  lemma {:induction false} FlattenLastWins(flat: seq<Val>, j: nat)
    requires j % 2 == 0 && j + 1 < |flat|
    requires forall i :: j < i && i + 1 < |flat| && i % 2 == 0 ==> KeyText(flat[i]) != KeyText(flat[j])
    ensures KeyText(flat[j]) in Flatten(flat) && Flatten(flat)[KeyText(flat[j])] == flat[j + 1]
    decreases j
  {
    var k := KeyText(flat[j]);
    if j == 0 {
      FlattenKeys(flat[2..], k);
      forall i | 0 <= i && i + 1 < |flat[2..]| && i % 2 == 0
        ensures KeyText(flat[2..][i]) != k
      {
        assert flat[2..][i] == flat[i + 2];
      }
    } else {
      var rest := flat[2..];
      forall i | j - 2 < i && i + 1 < |rest| && i % 2 == 0
        ensures KeyText(rest[i]) != KeyText(rest[j - 2])
      {
        assert rest[i] == flat[i + 2];
      }
      FlattenLastWins(rest, j - 2);
    }
  }

  /** Keeping the valid pairs is the same as dropping the "" key, where non-text and empty keys land. */
  lemma {:induction false} KeptPairsLookup(kv: seq<Val>)
    requires |kv| % 2 == 0
    ensures Flatten(KeptPairs(kv)) == Flatten(kv) - {""}
    decreases |kv|
  {
    if kv != [] {
      KeptPairsLookup(kv[2..]);
      var head := if IsFieldKey(kv[0]) then [kv[0], kv[1]] else [];
      FlattenAppend(head, KeptPairs(kv[2..]));
      var rest := Flatten(kv[2..]);
      if IsFieldKey(kv[0]) {
        assert Flatten(head) == map[KeyText(kv[0]) := kv[1]];
      } else {
        assert Flatten(head) == map[];
        assert KeyText(kv[0]) == "";
      }
      assert (map[KeyText(kv[0]) := kv[1]] + rest) - {""} == Flatten(head) + (rest - {""});
    }
  }

  /** `WithFields` returns its (nil-substituted) input exactly when no pair survives. */
  lemma ExtendedUnchanged<L>(ctx: Context<L>, kv: seq<Val>)
    ensures Extended(ctx, kv) == OrBackground(ctx) <==> KeptPairs(Paired(kv)) == []
  {
    var kept := KeptPairs(Paired(kv));
    if kept != [] {
      var base := OrBackground(ctx);
      assert |FlattenedFields(Extended(ctx, kv))| > |FlattenedFields(base)|;
    }
  }

  /** An unpaired last argument is never stored: it has no effect at all. */
  lemma OddArgumentIgnored<L>(ctx: Context<L>, kv: seq<Val>)
    requires |kv| % 2 != 0
    ensures Extended(ctx, kv) == Extended(ctx, kv[..|kv| - 1])
  {
  }

  /** A pair with a non-text or empty key never reaches storage, and every valid pair does. */
  lemma StoredKeys(kv: seq<Val>, k: string)
    ensures k in Flatten(KeptPairs(Paired(kv))) <==>
              k != "" && exists i :: 0 <= i && i + 1 < |kv| && i % 2 == 0 && kv[i] == S(k)
  {
    var p := Paired(kv);
    KeptPairsLookup(p);
    FlattenKeys(p, k);
    if exists i :: 0 <= i && i + 1 < |kv| && i % 2 == 0 && kv[i] == S(k) {
      var i :| 0 <= i && i + 1 < |kv| && i % 2 == 0 && kv[i] == S(k);
      assert i + 1 < |p| && KeyText(p[i]) == k;
    }
    if k in Flatten(KeptPairs(p)) {
      var i :| 0 <= i && i + 1 < |p| && i % 2 == 0 && KeyText(p[i]) == k;
      assert kv[i] == S(k);
    }
  }

  /** The attached list stays well formed under every `WithFields`. */
  lemma ExtendedKeepsWellFormed<L>(ctx: Context<L>, kv: seq<Val>)
    requires WellFormed(FlattenedFields(ctx))
    ensures WellFormed(FlattenedFields(Extended(ctx, kv)))
  {
    var a := FlattenedFields(ctx);
    var b := KeptPairs(Paired(kv));
    KeptPairsWellFormed(Paired(kv));
    forall i | 0 <= i < |a + b| && i % 2 == 0
      ensures IsFieldKey((a + b)[i])
    {
      if i >= |a| {
        assert (a + b)[i] == b[i - |a|];
      }
    }
  }

  /**
   * Merge order: after `WithFields`, the lookup is the old lookup overridden
   * by the new valid pairs, themselves last-write-wins.
   */
  lemma ExtendedLookup<L>(ctx: Context<L>, kv: seq<Val>)
    requires WellFormed(FlattenedFields(ctx))
    requires KeptPairs(Paired(kv)) != []
    ensures FieldMap(Extended(ctx, kv)) == Some(Flatten(FlattenedFields(ctx)) + (Flatten(Paired(kv)) - {""}))
  {
    FlattenAppend(FlattenedFields(ctx), KeptPairs(Paired(kv)));
    KeptPairsLookup(Paired(kv));
  }

  /** `WithField` with a non-empty key sets that one key and keeps every other. */
  lemma FieldAddedLookup<L>(ctx: Context<L>, key: string, value: Val)
    requires WellFormed(FlattenedFields(ctx))
    requires key != ""
    ensures FieldMap(FieldAdded(ctx, key, value)) == Some(Flatten(FlattenedFields(ctx))[key := value])
  {
    FlattenAppend(FlattenedFields(ctx), [S(key), value]);
    assert [S(key), value][2..] == [];
    assert Flatten([S(key), value]) == map[key := value];
    var m := Flatten(FlattenedFields(ctx));
    assert m + map[key := value] == m[key := value];
  }

  /** Absent means never enriched: a context with fields attached always yields a non-empty map. */
  lemma FieldMapAbsent<L>(ctx: Context<L>)
    requires WellFormed(FlattenedFields(ctx))
    ensures FieldMap(ctx).None? <==> FlattenedFields(ctx) == []
    ensures FieldMap(ctx).Some? ==> FieldMap(ctx).value != map[]
  {
    var flat := FlattenedFields(ctx);
    if flat != [] {
      FlattenKeys(flat, KeyText(flat[0]));
    }
  }

  /** The merge example: a later "a" overrides an earlier one. */
  lemma MergeExample(v1: Val, v2: Val)
    ensures FieldMap(Extended(FieldAdded(Background<int>(), "a", v1), [S("a"), v2])) == Some(map["a" := v2])
  {
    var c := FieldAdded(Background<int>(), "a", v1);
    assert FlattenedFields(c) == [S("a"), v1];
    assert [S("a"), v1][2..] == [] && [S("a"), v2][2..] == [];
    assert Flatten([S("a"), v1]) == map["a" := v1];
    assert Flatten([S("a"), v2]) - {""} == map["a" := v2];
    SinglePairKept("a", v2);
    ExtendedLookup(c, [S("a"), v2]);
    assert map["a" := v1] + map["a" := v2] == map["a" := v2];
  }
}
