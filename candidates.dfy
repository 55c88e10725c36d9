/** The model-candidate list the generation client walks: the preferred
    model first, then the configured or default fallbacks, with duplicates
    dropped; and the per-call rotation of that list. */
module Candidates {
  import opened PyStr
  import opened State

  /** The fallback list used when no override is configured. */
  const DefaultModels: seq<string> := [
    "gemini-2.5-flash",
    "gemini-2.5-flash-lite",
    "gemini-2.5-pro",
    "gemini-2.0-flash",
    "gemini-2.0-flash-lite",
    "gemini-flash-latest"
  ]

  /** `model or os.getenv("GEMINI_MODEL")`, kept only when non-empty. */
  function Preferred(model: Option<string>, envModel: Option<string>): (p: Option<string>)
    ensures p.Some? ==> p.value != ""
    ensures model.Some? && model.value != "" ==> p == model
    ensures (model.None? || model.value == "") ==>
              (p.Some? <==> envModel.Some? && envModel.value != "")
  {
    if model.Some? && model.value != "" then model
    else if envModel.Some? && envModel.value != "" then envModel
    else None
  }

  /** The non-empty stripped pieces of a comma-separated list. */
  function NonEmptyStripped(parts: seq<string>): (r: seq<string>)
    ensures forall k :: 0 <= k < |r| ==> r[k] != ""
  {
    if parts == [] then []
    else if Strip(parts[0]) != "" then [Strip(parts[0])] + NonEmptyStripped(parts[1..])
    else NonEmptyStripped(parts[1..])
  }

  /** The override list holds exactly the non-blank pieces, stripped. */
  lemma {:induction false} NonEmptyStrippedElements(parts: seq<string>, x: string)
    ensures x in NonEmptyStripped(parts) <==> x != "" && exists k :: 0 <= k < |parts| && x == Strip(parts[k])
  {
    if parts != [] {
      NonEmptyStrippedElements(parts[1..], x);
      if exists k :: 0 <= k < |parts| && x == Strip(parts[k]) {
        var k :| 0 <= k < |parts| && x == Strip(parts[k]);
        if k > 0 {
          assert parts[1..][k - 1] == parts[k];
        }
      }
      if exists k :: 0 <= k < |parts| - 1 && x == Strip(parts[1..][k]) {
        var k :| 0 <= k < |parts| - 1 && x == Strip(parts[1..][k]);
        assert parts[k + 1] == parts[1..][k];
      }
    }
  }

  /** The fallback list before the preferred model is put in front: the
      GEMINI_FALLBACK_MODELS override when it is non-blank, the defaults
      otherwise. */
  function FallbackItems(envFallback: Option<string>): (items: seq<string>)
    ensures envFallback.None? || Strip(envFallback.value) == "" ==> items == DefaultModels
    ensures forall k :: 0 <= k < |items| ==> items[k] != ""
  {
    var env := if envFallback.Some? then Strip(envFallback.value) else "";
    if env != "" then NonEmptyStripped(Split(env, ',')) else DefaultModels
  }

  /** Every element different from `x`, in order. */
  function Without(s: seq<string>, x: string): (r: seq<string>)
    ensures x !in r
    ensures forall y :: y in r <==> y in s && y != x
  {
    if s == [] then []
    else if s[0] == x then Without(s[1..], x)
    else [s[0]] + Without(s[1..], x)
  }

  /** The list with the preferred model (if any) put at the front. */
  function WithPreferred(preferred: Option<string>, items: seq<string>): seq<string> {
    if preferred.Some? then [preferred.value] + Without(items, preferred.value) else items
  }

  /** First occurrences kept, later repeats dropped (specification of the
      `seen`-set loop). */
  function Dedup<T(==)>(s: seq<T>): seq<T>
    decreases |s|
  {
    if s == [] then []
    else
      var d := Dedup(s[..|s| - 1]);
      if s[|s| - 1] in d then d else d + [s[|s| - 1]]
  }

  predicate NoDuplicates<T(==)>(s: seq<T>) {
    forall i, j :: 0 <= i < j < |s| ==> s[i] != s[j]
  }

  /** Index of the first occurrence of `x` in `s`, or |s| when absent. */
  function IndexOf<T(==)>(s: seq<T>, x: T): (i: nat)
    ensures i <= |s|
    ensures i < |s| <==> x in s
    ensures i < |s| ==> s[i] == x
    ensures forall j :: 0 <= j < i ==> s[j] != x
  {
    if s == [] then 0 else if s[0] == x then 0 else 1 + IndexOf(s[1..], x)
  }

  /** The candidate list for one call. */
  function CandidateList(preferred: Option<string>, items: seq<string>): seq<string> {
    Dedup(WithPreferred(preferred, items))
  }

  // ---------------------------------------------------------------------
  // What de-duplication keeps

  lemma {:induction false} DedupSameElements<T>(s: seq<T>)
    ensures forall x :: x in Dedup(s) <==> x in s
    decreases |s|
  {
    if s != [] {
      var p := s[..|s| - 1];
      DedupSameElements(p);
      assert s == p + [s[|s| - 1]];
    }
  }

  lemma {:induction false} DedupNoDuplicates<T>(s: seq<T>)
    ensures NoDuplicates(Dedup(s))
    decreases |s|
  {
    if s != [] {
      DedupNoDuplicates(s[..|s| - 1]);
    }
  }

  /** The kept elements appear in the order of their first occurrences. */
  lemma {:induction false} DedupFirstOccurrenceOrder<T>(s: seq<T>)
    ensures forall i, j :: 0 <= i < j < |Dedup(s)| ==>
              IndexOf(s, Dedup(s)[i]) < IndexOf(s, Dedup(s)[j])
    decreases |s|
  {
    if s == [] {
      assert Dedup(s) == [];
    } else {
      var p := s[..|s| - 1];
      assert s == p + [s[|s| - 1]];
      DedupFirstOccurrenceOrder(p);
      forall i, j | 0 <= i < j < |Dedup(s)|
        ensures IndexOf(s, Dedup(s)[i]) < IndexOf(s, Dedup(s)[j])
      {
        DedupOrderStep(p, s[|s| - 1], i, j);
      }
    }
  }

  /** One step of the induction above: appending `y` keeps the order. */
  lemma DedupOrderStep<T>(p: seq<T>, y: T, i: nat, j: nat)
    requires forall i, j :: 0 <= i < j < |Dedup(p)| ==>
               IndexOf(p, Dedup(p)[i]) < IndexOf(p, Dedup(p)[j])
    requires i < j < |Dedup(p + [y])|
    ensures IndexOf(p + [y], Dedup(p + [y])[i]) < IndexOf(p + [y], Dedup(p + [y])[j])
  {
    var s := p + [y];
    assert s[..|s| - 1] == p;
    var d := Dedup(p);
    var e := Dedup(s);
    assert e == if y in d then d else d + [y];
    assert e[i] == d[i];
    DedupElementIn(p, i);
    PrefixIndexOf(p, y, d[i]);
    if j < |d| {
      assert e[j] == d[j];
      DedupElementIn(p, j);
      PrefixIndexOf(p, y, d[j]);
    } else {
      DedupSameElements(p);
      assert y !in p;
      assert e[j] == y;
      assert IndexOf(s, y) == |s| - 1;
    }
  }

  lemma DedupElementIn<T>(p: seq<T>, i: nat)
    requires i < |Dedup(p)|
    ensures Dedup(p)[i] in p
  {
    DedupSameElements(p);
    assert Dedup(p)[i] in Dedup(p);
  }

  lemma {:induction false} PrefixIndexOf<T>(p: seq<T>, y: T, x: T)
    requires x in p
    ensures IndexOf(p + [y], x) == IndexOf(p, x)
  {
    if p[0] != x {
      assert (p + [y])[1..] == p[1..] + [y];
      PrefixIndexOf(p[1..], y, x);
    }
  }

  lemma {:induction false} DedupHead<T>(x: T, s: seq<T>)
    ensures |Dedup([x] + s)| >= 1 && Dedup([x] + s)[0] == x
    decreases |s|
  {
    if s != [] {
      var t := [x] + s;
      assert t[..|t| - 1] == [x] + s[..|s| - 1];
      DedupHead(x, s[..|s| - 1]);
    }
  }

  /** What the candidate list promises: the preferred model first, no
      repeats, exactly the preferred model and the fallback items. */
  lemma CandidateListProperties(preferred: Option<string>, items: seq<string>)
    ensures preferred.Some? ==> |CandidateList(preferred, items)| >= 1
                                && CandidateList(preferred, items)[0] == preferred.value
    ensures NoDuplicates(CandidateList(preferred, items))
    ensures forall x :: x in CandidateList(preferred, items) <==>
              x in items || (preferred.Some? && x == preferred.value)
  {
    if preferred.Some? {
      DedupHead(preferred.value, Without(items, preferred.value));
    }
    DedupNoDuplicates(WithPreferred(preferred, items));
    DedupSameElements(WithPreferred(preferred, items));
  }

  /** The `seen`-set loop that builds the candidate list. */
  method BuildCandidates(preferred: Option<string>, items: seq<string>) returns (out: seq<string>)
    ensures out == CandidateList(preferred, items)
  {
    var list := items;
    if preferred.Some? {
      var rest: seq<string> := [];
      for k := 0 to |items|
        invariant rest == Without(items[..k], preferred.value)
      {
        WithoutSnoc(items[..k], items[k], preferred.value);
        assert items[..k + 1] == items[..k] + [items[k]];
        if items[k] != preferred.value {
          rest := rest + [items[k]];
        }
      }
      assert items[..|items|] == items;
      list := [preferred.value] + rest;
    }
    var seen: set<string> := {};
    out := [];
    for i := 0 to |list|
      invariant out == Dedup(list[..i])
      invariant forall x :: x in seen <==> x in out
    {
      assert list[..i + 1][..i] == list[..i];
      if list[i] !in seen {
        seen := seen + {list[i]};
        out := out + [list[i]];
      }
    }
    assert list[..|list|] == list;
  }

  lemma {:induction false} WithoutSnoc(s: seq<string>, y: string, x: string)
    ensures Without(s + [y], x) == Without(s, x) + (if y == x then [] else [y])
    decreases |s|
  {
    if s != [] {
      assert (s + [y])[1..] == s[1..] + [y];
      WithoutSnoc(s[1..], y, x);
    }
  }

  // ---------------------------------------------------------------------
  // Round-robin rotation

  /** `all[start:] + all[:start]` with `start = idx % len(all)`. */
  function Rotate<T>(s: seq<T>, idx: nat): (r: seq<T>)
    requires |s| > 0
  {
    s[idx % |s|..] + s[..idx % |s|]
  }

  /** A rotation starts at `idx mod len`, wraps around, and is a
      permutation of the list. */
  lemma RotateIsPermutation<T>(s: seq<T>, idx: nat)
    requires |s| > 0
    ensures |Rotate(s, idx)| == |s|
    ensures forall i :: 0 <= i < |s| ==>
              var k := idx % |s|;
              Rotate(s, idx)[i] == s[if i + k < |s| then i + k else i + k - |s|]
    ensures multiset(Rotate(s, idx)) == multiset(s)
  {
    var k := idx % |s|;
    assert s[..k] + s[k..] == s;
  }

  /** The index after a call: one step further round the list. */
  function NextRotation(idx: nat, len: nat): (r: nat)
    ensures len > 0 ==> r < len && r == (idx + 1) % len
    ensures len == 0 ==> r == idx
  {
    if len > 0 then (idx + 1) % len else idx
  }
}
