/** The class-name generator that the JSS registry installs: a closure over a
    counter that, for every style rule, yields `<prefix>_<rule key>_<n>`
    where the prefix is the sheet's class-name prefix with every character
    outside [A-Za-z0-9_-] replaced by '_'. */
module JssRegistry {
  import opened Js

  /** Prefix used when the sheet has no (or an empty) `classNamePrefix`. */
  const DefaultPrefix := "jss"

  /** Membership in the character class [a-zA-Z0-9_-]. */
  predicate Allowed(c: char)
  {
    ('a' <= c <= 'z') || ('A' <= c <= 'Z') || ('0' <= c <= '9') || c == '_' || c == '-'
  }

  predicate AllAllowed(s: string)
  {
    forall i :: 0 <= i < |s| ==> Allowed(s[i])
  }

  /** `s.replace(/[^a-zA-Z0-9_-]/g, '_')`: every character outside the class
      becomes '_', every other character stays where it is. */
  function Sanitize(s: string): (r: string)
    ensures |r| == |s|
    ensures AllAllowed(r)
    ensures forall i :: 0 <= i < |s| && Allowed(s[i]) ==> r[i] == s[i]
    ensures forall i :: 0 <= i < |s| && !Allowed(s[i]) ==> r[i] == '_'
  {
    if s == [] then []
    else Sanitize(s[..|s| - 1]) + [if Allowed(s[|s| - 1]) then s[|s| - 1] else '_']
  }

  /** A prefix made only of allowed characters is left as it is. */
  lemma SanitizeKeepsAllowed(s: string)
    requires AllAllowed(s)
    ensures Sanitize(s) == s
  {
    var r := Sanitize(s);
    assert forall i :: 0 <= i < |s| ==> r[i] == s[i];
  }

  /** Sanitising twice is sanitising once. */
  lemma SanitizeIdempotent(s: string)
    ensures Sanitize(Sanitize(s)) == Sanitize(s)
  {
    SanitizeKeepsAllowed(Sanitize(s));
  }

  /** `(sheet.options.classNamePrefix || 'jss')`, sanitised. */
  function ClassPrefix(classNamePrefix: Option<string>): (p: string)
    ensures AllAllowed(p)
    ensures !Present(classNamePrefix) ==> p == DefaultPrefix
    ensures Present(classNamePrefix) ==> p == Sanitize(classNamePrefix.value)
  {
    SanitizeKeepsAllowed(DefaultPrefix);
    Sanitize(OrElse(classNamePrefix, DefaultPrefix))
  }

  /** The id text `${prefix}_${rule.key}_${counter}`. */
  function FormatId(prefix: string, ruleKey: string, counter: nat): string
  {
    prefix + "_" + ruleKey + "_" + DecimalString(counter)
  }

  /** The text after the last '_' (all of it when there is none). */
  function LastSegment(s: string): (r: string)
    ensures '_' !in r
    ensures |r| <= |s| && r == s[|s| - |r|..]
  {
    if s == [] || s[|s| - 1] == '_' then []
    else LastSegment(s[..|s| - 1]) + [s[|s| - 1]]
  }

  /** The counter an id carries in its last segment, if that segment is a
      number. */
  function CounterOf(id: string): Option<nat>
  {
    var seg := LastSegment(id);
    if AllDigits(seg) then Some(DecimalValue(seg)) else None
  }

  lemma {:induction false} LastSegmentAfterSeparator(a: string, d: string)
    requires '_' !in d
    ensures LastSegment(a + "_" + d) == d
    decreases |d|
  {
    var s := a + "_" + d;
    if d != [] {
      assert s[..|s| - 1] == a + "_" + d[..|d| - 1];
      assert d[|d| - 1] in d;
      LastSegmentAfterSeparator(a, d[..|d| - 1]);
    } else {
      assert s[|s| - 1] == '_';
    }
  }

  /** Every generated id gives back the counter it was made with, whatever
      the prefix and the rule key (a key may itself contain '_' and digits). */
  lemma IdCarriesCounter(prefix: string, ruleKey: string, counter: nat)
    ensures CounterOf(FormatId(prefix, ruleKey, counter)) == Some(counter)
  {
    var d := DecimalString(counter);
    assert '_' !in d;
    assert FormatId(prefix, ruleKey, counter) == (prefix + "_" + ruleKey) + "_" + d;
    LastSegmentAfterSeparator(prefix + "_" + ruleKey, d);
    DecimalRoundTrip(counter);
  }

  /** Ids made with different counters differ. */
  lemma DistinctCountersDistinctIds(p1: string, k1: string, c1: nat, p2: string, k2: string, c2: nat)
    requires c1 != c2
    ensures FormatId(p1, k1, c1) != FormatId(p2, k2, c2)
  {
    IdCarriesCounter(p1, k1, c1);
    IdCarriesCounter(p2, k2, c2);
  }

  /** Id number i (from 0) in the list carries counter i + 1. */
  ghost predicate Numbered(ids: seq<string>)
  {
    forall i :: 0 <= i < |ids| ==> CounterOf(ids[i]) == Some(i + 1)
  }

  /** Numbered ids are pairwise distinct. */
  lemma NumberedDistinct(ids: seq<string>)
    requires Numbered(ids)
    ensures forall i, j :: 0 <= i < j < |ids| ==> ids[i] != ids[j]
  {
    forall i, j | 0 <= i < j < |ids|
      ensures ids[i] != ids[j]
    {
      assert CounterOf(ids[i]) == Some(i + 1);
      assert CounterOf(ids[j]) == Some(j + 1);
    }
  }

  /** The next id keeps the list numbered and is new to it. */
  lemma NumberedExtend(ids: seq<string>, id: string)
    requires Numbered(ids) && CounterOf(id) == Some(|ids| + 1)
    ensures Numbered(ids + [id])
    ensures id !in ids
  {
    forall i | 0 <= i < |ids|
      ensures ids[i] != id
    {
      assert CounterOf(ids[i]) == Some(i + 1);
    }
  }

  /** The `generateId` closure: `counter` is the captured variable, `issued`
      the ids handed out so far. */
  class IdGenerator {
    var counter: nat
    ghost var issued: seq<string>

    ghost predicate Valid()
      reads this
    {
      |issued| == counter && Numbered(issued)
    }

    constructor ()
      ensures Valid() && counter == 0 && issued == []
    {
      counter := 0;
      issued := [];
    }

    /** Every id is new: its counter is one more than the last one. */
    method GenerateId(ruleKey: string, classNamePrefix: Option<string>) returns (id: string)
      requires Valid()
      modifies this
      ensures Valid()
      ensures counter == old(counter) + 1
      ensures id == FormatId(ClassPrefix(classNamePrefix), ruleKey, counter)
      ensures issued == old(issued) + [id]
      ensures id !in old(issued)
      ensures forall i, j :: 0 <= i < j < |issued| ==> issued[i] != issued[j]
    {
      counter := counter + 1;
      var prefix := ClassPrefix(classNamePrefix);
      id := prefix + "_" + ruleKey + "_" + DecimalString(counter);
      IdCarriesCounter(prefix, ruleKey, counter);
      NumberedExtend(issued, id);
      issued := issued + [id];
      NumberedDistinct(issued);
    }
  }
}
