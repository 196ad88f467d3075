/**
Collision resolution (pg/pg_mcp/src/codegen/ident.rs, `dedup`): the first name
keeps its derived identifier, later ones get a hash suffix, and repeats of the
suffix an ordinal.  The search for a free ordinal ends because different
ordinals give different candidates, so it cannot outlast the names in use.
*/
module Collisions {
  import opened Ident

  // ----- decimal ordinals -----

  function Dec(n: nat): (s: string)
    ensures s != ""
  {
    if n < 10 then [n as char + '0'] else Dec(n / 10) + [(n % 10) as char + '0']
  }

  function Pow10(k: nat): (p: nat)
    ensures p > 0
  {
    if k == 0 then 1 else 10 * Pow10(k - 1)
  }

  lemma {:induction false} DecIsDigits(n: nat)
    ensures forall i | 0 <= i < |Dec(n)| :: IsDigit(Dec(n)[i])
  {
    if n >= 10 {
      DecIsDigits(n / 10);
    }
  }

  lemma {:induction false} DecInjective(a: nat, b: nat)
    requires Dec(a) == Dec(b)
    ensures a == b
  {
    var s := Dec(a);
    if a >= 10 && b >= 10 {
      assert Dec(a / 10) == s[..|s| - 1] == Dec(b / 10);
      DecInjective(a / 10, b / 10);
      assert s[|s| - 1] == (a % 10) as char + '0' == (b % 10) as char + '0';
    }
  }

  lemma {:induction false} DecLength(n: nat, k: nat)
    requires n < Pow10(k) && k > 0
    ensures |Dec(n)| <= k
  {
    if n >= 10 {
      assert k > 1 by {
        assert Pow10(1) == 10 * Pow10(0) == 10;
      }
      DecLength(n / 10, k - 1);
    }
  }

  // ----- candidates -----

  function Head(sql: string, n: nat): string {
    if n < |sql| then sql[..n] else sql
  }

  /** Room left for the head when an ordinal of `d` digits is appended. */
  function HeadLen(d: nat): nat {
    if d + 1 > TRUNCATE_BYTES then 0 else TRUNCATE_BYTES - (d + 1)
  }

  /** What is tried at occurrence `k`, counting from 1. */
  function Candidate(sql: string, h: Hex7, k: nat): string {
    if k <= 1 then Head(sql, TRUNCATE_BYTES) + "_" + h
    else Head(sql, HeadLen(|Dec(k)|)) + "_" + h + "_" + Dec(k)
  }

  /** A string of digits after a separator can be read back off the end. */
  lemma LastSegment(a: string, x: string, b: string, y: string)
    requires a + "_" + x == b + "_" + y
    requires (forall i | 0 <= i < |x| :: x[i] != '_') && (forall i | 0 <= i < |y| :: y[i] != '_')
    ensures x == y
  {
    var s := a + "_" + x;
    assert s[|a|] == '_' && s[|b|] == '_';
    assert forall i | |a| < i < |s| :: s[i] == x[i - |a| - 1];
    assert forall i | |b| < i < |s| :: s[i] == y[i - |b| - 1];
    assert |a| == |b|;
    assert x == s[|a| + 1..] && y == s[|b| + 1..];
  }

  lemma CandidatesDiffer(sql: string, h: Hex7, j: nat, k: nat)
    requires 2 <= j && 2 <= k && j != k
    ensures Candidate(sql, h, j) != Candidate(sql, h, k)
  {
    if Candidate(sql, h, j) == Candidate(sql, h, k) {
      DecIsDigits(j);
      DecIsDigits(k);
      LastSegment(Head(sql, HeadLen(|Dec(j)|)) + "_" + h, Dec(j), Head(sql, HeadLen(|Dec(k)|)) + "_" + h, Dec(k));
      DecInjective(j, k);
    }
  }

  /** The names in use that occurrence `k` or a later one could still run into. */
  ghost function Ahead(seen: set<string>, sql: string, h: Hex7, k: nat): set<string> {
    set c | c in seen && exists j: nat :: j >= k && Candidate(sql, h, j) == c
  }

  lemma AheadShrinks(seen: set<string>, sql: string, h: Hex7, k: nat)
    requires 2 <= k && Candidate(sql, h, k) in seen
    ensures Ahead(seen, sql, h, k + 1) < Ahead(seen, sql, h, k)
  {
    var c := Candidate(sql, h, k);
    assert c in Ahead(seen, sql, h, k);
    if c in Ahead(seen, sql, h, k + 1) {
      var j: nat :| j >= k + 1 && Candidate(sql, h, j) == c;
      CandidatesDiffer(sql, h, j, k);
    }
  }

  /** The first occurrence from `k` on whose candidate is free. */
  function FreeFrom(seen: set<string>, sql: string, h: Hex7, k: nat): (r: nat)
    requires k >= 1
    ensures k <= r && Candidate(sql, h, r) !in seen
    decreases k == 1, Ahead(seen, sql, h, k)
  {
    if Candidate(sql, h, k) !in seen then k
    else if k == 1 then FreeFrom(seen, sql, h, 2)
    else
      AheadShrinks(seen, sql, h, k);
      FreeFrom(seen, sql, h, k + 1)
  }

  lemma SubsetSize(a: set<string>, b: set<string>)
    requires a <= b
    ensures |a| <= |b|
    ensures a < b ==> |a| < |b|
  {
    assert b == a + (b - a);
    assert |b| == |a| + |b - a|;
    if a < b {
      var x :| x in b && x !in a;
      assert x in b - a;
    }
  }

  /** The search ends within as many steps as there are names in use. */
  lemma {:induction false} FreeFromBound(seen: set<string>, sql: string, h: Hex7, k: nat)
    requires k >= 2
    ensures FreeFrom(seen, sql, h, k) <= k + |Ahead(seen, sql, h, k)|
    decreases Ahead(seen, sql, h, k)
  {
    if Candidate(sql, h, k) in seen {
      AheadShrinks(seen, sql, h, k);
      SubsetSize(Ahead(seen, sql, h, k + 1), Ahead(seen, sql, h, k));
      FreeFromBound(seen, sql, h, k + 1);
    }
  }

  // ----- one name, then a batch -----

  /** The identifier the next name gets when `seen` are taken. */
  function Assigned(seen: set<string>, name: string, sql: string, hash: string -> Hex7): string {
    if sql !in seen then sql else Candidate(sql, hash(name), FreeFrom(seen, sql, hash(name), 1))
  }

  function Resolved(names: seq<string>, prefix: string, lower: char -> string, hash: string -> Hex7): (out: seq<string>)
    ensures |out| == |names|
  {
    if names == [] then []
    else
      var init, name := names[..|names| - 1], names[|names| - 1];
      var out := Resolved(init, prefix, lower, hash);
      out + [Assigned(Taken(out), name, Derived(name, prefix, lower, hash), hash)]
  }

  function Taken(out: seq<string>): set<string> {
    set i | 0 <= i < |out| :: out[i]
  }

  lemma TakenAppend(out: seq<string>, x: string)
    ensures Taken(out + [x]) == Taken(out) + {x}
  {
    var more := out + [x];
    assert forall i | 0 <= i < |out| :: more[i] == out[i];
    assert more[|out|] == x;
  }

  /** The search for a free candidate. */
  method FindFree(seen: set<string>, sql: string, h: Hex7) returns (candidate: string)
    ensures candidate == Candidate(sql, h, FreeFrom(seen, sql, h, 1))
  {
    candidate := Head(sql, TRUNCATE_BYTES) + "_" + h;
    var occurrence := 1;
    while candidate in seen
      invariant occurrence >= 1
      invariant candidate == Candidate(sql, h, occurrence)
      invariant FreeFrom(seen, sql, h, 1) == FreeFrom(seen, sql, h, occurrence)
      decreases occurrence == 1, Ahead(seen, sql, h, occurrence)
    {
      if occurrence >= 2 {
        AheadShrinks(seen, sql, h, occurrence);
      }
      occurrence := occurrence + 1;
      var ordinal := Dec(occurrence);
      candidate := Head(sql, HeadLen(|ordinal|)) + "_" + h + "_" + ordinal;
    }
  }

  method Dedup(names: seq<string>, prefix: string, lower: char -> string, hash: string -> Hex7)
    returns (out: seq<string>)
    ensures out == Resolved(names, prefix, lower, hash)
  {
    var seen: set<string> := {};
    out := [];
    for n := 0 to |names|
      invariant out == Resolved(names[..n], prefix, lower, hash)
      invariant seen == Taken(out)
    {
      assert names[..n + 1][..n] == names[..n];
      var sql := Derive(names[n], prefix, lower, hash);
      var given := sql;
      if sql in seen {
        given := FindFree(seen, sql, hash(names[n]));
      }
      TakenAppend(out, given);
      seen := seen + {given};
      out := out + [given];
    }
    assert names[..|names|] == names;
  }

  // ----- the theorems -----

  lemma AssignedIsFree(seen: set<string>, name: string, sql: string, hash: string -> Hex7)
    ensures Assigned(seen, name, sql, hash) !in seen
  {
  }

  lemma AssignedFits(seen: set<string>, name: string, sql: string, hash: string -> Hex7)
    requires |seen| < Pow10(53)
    requires Plain(sql) && |sql| <= MAX_BYTES
    ensures var a := Assigned(seen, name, sql, hash); Plain(a) && |a| <= MAX_BYTES
  {
    if sql in seen {
      var h := hash(name);
      var k := FreeFrom(seen, sql, h, 1);
      if k >= 2 {
        assert k == FreeFrom(seen, sql, h, 2);
        FreeFromBound(seen, sql, h, 2);
        SubsetSize(Ahead(seen, sql, h, 2), seen);
        assert Pow10(54) == 10 * Pow10(53);
        DecLength(k, 54);
        DecIsDigits(k);
      }
      CandidateIsPlain(sql, h, k);
    }
  }

  lemma CandidateIsPlain(sql: string, h: Hex7, k: nat)
    requires Plain(sql)
    requires forall i | 0 <= i < |Dec(k)| :: IsDigit(Dec(k)[i])
    ensures Plain(Candidate(sql, h, k))
    ensures k <= 1 || |Dec(k)| <= 54 ==> |Candidate(sql, h, k)| <= MAX_BYTES
  {
    var head := if k <= 1 then Head(sql, TRUNCATE_BYTES) else Head(sql, HeadLen(|Dec(k)|));
    assert Plain(head);
    assert forall i | 0 <= i < 7 :: IsIdent(h[i]);
    var body := head + "_" + h;
    assert Plain(body) && body != "";
    if k >= 2 {
      assert (body + "_" + Dec(k))[0] == body[0];
    }
  }

  ghost predicate Distinct(s: seq<string>) {
    forall i, j | 0 <= i < j < |s| :: s[i] != s[j]
  }

  ghost predicate AllFitting(s: seq<string>) {
    forall i | 0 <= i < |s| :: Plain(s[i]) && |s[i]| <= MAX_BYTES
  }

  lemma ValidAppend(out: seq<string>, x: string)
    requires Distinct(out) && AllFitting(out)
    requires x !in Taken(out) && Plain(x) && |x| <= MAX_BYTES
    ensures Distinct(out + [x]) && AllFitting(out + [x])
  {
    var more := out + [x];
    forall i, j | 0 <= i < j < |more| ensures more[i] != more[j] {
      assert more[i] == out[i] && out[i] in Taken(out);
    }
  }

  lemma AssignedIsValid(out: seq<string>, name: string, prefix: string, lower: char -> string, hash: string -> Hex7)
    requires Plain(prefix) && |out| < Pow10(53)
    ensures var a := Assigned(Taken(out), name, Derived(name, prefix, lower, hash), hash);
            a !in Taken(out) && Plain(a) && |a| <= MAX_BYTES
  {
    TakenSize(out);
    DerivedIsPlain(name, prefix, lower, hash);
    AssignedIsFree(Taken(out), name, Derived(name, prefix, lower, hash), hash);
    AssignedFits(Taken(out), name, Derived(name, prefix, lower, hash), hash);
  }

  /** For any hash, any lowercasing and any batch below 10^53 names, the resolved
      identifiers are pairwise distinct, plain and within the limit. */
  lemma {:induction false} ResolvedIsValid(names: seq<string>, prefix: string, lower: char -> string,
                                           hash: string -> Hex7)
    requires Plain(prefix)
    requires |names| < Pow10(53)
    ensures Distinct(Resolved(names, prefix, lower, hash))
    ensures AllFitting(Resolved(names, prefix, lower, hash))
  {
    if names != [] {
      var init, name := names[..|names| - 1], names[|names| - 1];
      var out := Resolved(init, prefix, lower, hash);
      ResolvedIsValid(init, prefix, lower, hash);
      AssignedIsValid(out, name, prefix, lower, hash);
      ValidAppend(out, Assigned(Taken(out), name, Derived(name, prefix, lower, hash), hash));
    }
  }

  lemma {:induction false} TakenSize(out: seq<string>)
    ensures |Taken(out)| <= |out|
  {
    if out != [] {
      var init := out[..|out| - 1];
      TakenSize(init);
      assert Taken(out) == Taken(init) + {out[|out| - 1]};
    }
  }

  /** Later names never change the identifiers given to earlier ones. */
  lemma {:induction false} ResolvedIsStable(names: seq<string>, more: seq<string>, prefix: string,
                                            lower: char -> string, hash: string -> Hex7)
    ensures Resolved(names + more, prefix, lower, hash)[..|names|] == Resolved(names, prefix, lower, hash)
  {
    if more == [] {
      assert names + more == names;
      assert Resolved(names, prefix, lower, hash)[..|names|] == Resolved(names, prefix, lower, hash);
    } else {
      var init := more[..|more| - 1];
      assert (names + more)[..|names + more| - 1] == names + init;
      ResolvedIsStable(names, init, prefix, lower, hash);
    }
  }

  /** A name keeps its derived identifier exactly when no earlier name took it. */
  lemma FirstComesFirst(names: seq<string>, prefix: string, lower: char -> string,
                        hash: string -> Hex7, i: nat)
    requires i < |names|
    ensures var out := Resolved(names, prefix, lower, hash);
            var sql := Derived(names[i], prefix, lower, hash);
            out[i] == sql <==> forall j | 0 <= j < i :: out[j] != sql
  {
    ResolvedIsStable(names[..i + 1], names[i + 1..], prefix, lower, hash);
    assert names == names[..i + 1] + names[i + 1..];
    assert names[..i + 1][..i] == names[..i];
    var before := Resolved(names[..i], prefix, lower, hash);
    var out := Resolved(names, prefix, lower, hash);
    var sql := Derived(names[i], prefix, lower, hash);
    assert out[..i + 1] == before + [Assigned(Taken(before), names[i], sql, hash)];
    assert out[i] == out[..i + 1][i];
    assert forall j | 0 <= j < i :: out[j] == out[..i + 1][j] == before[j];
    AssignedIsFree(Taken(before), names[i], sql, hash);
  }

  /** At most one identifier of a batch is empty: the first whose name derives to
      nothing. */
  lemma OnlyFirstIsEmpty(names: seq<string>, prefix: string, lower: char -> string, hash: string -> Hex7, i: nat)
    requires i < |names|
    ensures var out := Resolved(names, prefix, lower, hash);
            out[i] == "" <==> Derived(names[i], prefix, lower, hash) == "" && forall j | 0 <= j < i :: out[j] != ""
  {
    FirstComesFirst(names, prefix, lower, hash, i);
    ResolvedAt(names, prefix, lower, hash, i);
  }

  /** An identifier is the derived one or a suffixed candidate. */
  lemma ResolvedAt(names: seq<string>, prefix: string, lower: char -> string, hash: string -> Hex7, i: nat)
    requires i < |names|
    ensures var x := Resolved(names, prefix, lower, hash)[i]; x == Derived(names[i], prefix, lower, hash) || x != ""
  {
    ResolvedIsStable(names[..i + 1], names[i + 1..], prefix, lower, hash);
    assert names == names[..i + 1] + names[i + 1..];
    assert names[..i + 1][..i] == names[..i];
    assert Resolved(names, prefix, lower, hash)[i] == Resolved(names[..i + 1], prefix, lower, hash)[i];
  }
}
