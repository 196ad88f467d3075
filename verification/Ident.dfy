/**
SQL identifiers for MCP names (pg/pg_mcp/src/codegen/ident.rs): the derivation
of one name, and the resolution of collisions in a batch.  The results hold
for every hash function of the right shape and every way of lowercasing the
characters outside ASCII.
*/
module Ident {

  const MAX_BYTES := 63
  const TRUNCATE_BYTES := 55

  predicate IsLower(c: char) { 'a' <= c <= 'z' }
  predicate IsUpper(c: char) { 'A' <= c <= 'Z' }
  predicate IsDigit(c: char) { '0' <= c <= '9' }
  predicate IsHex(c: char) { IsDigit(c) || 'a' <= c <= 'f' }

  /** The characters of a derived identifier; all of them are single bytes. */
  predicate IsIdent(c: char) { IsLower(c) || IsDigit(c) || c == '_' }

  predicate AllIdent(s: string) { forall i | 0 <= i < |s| :: IsIdent(s[i]) }

  /** An identifier needs no quoting: its class, and no leading digit. */
  predicate Plain(s: string) {
    AllIdent(s) && (s != "" ==> !IsDigit(s[0]))
  }

  /** Seven lowercase hexadecimal characters: the shape of every suffix. */
  type Hex7 = s: string | |s| == 7 && forall i | 0 <= i < 7 :: IsHex(s[i]) witness "0000000"

  predicate IsAscii(c: char) { c as int < 128 }

  function AsciiLower(c: char): char { if IsUpper(c) then c - 'A' + 'a' else c }

  /** Lowercasing is the usual map on ASCII and anything at all elsewhere. */
  ghost predicate LowersAscii(lower: char -> string) {
    forall c: char | IsAscii(c) :: lower(c) == [AsciiLower(c)]
  }

  // ----- case boundaries -----

  predicate Boundary(name: string, i: nat)
    requires i < |name|
  {
    && i > 0
    && (|| (IsLower(name[i - 1]) && IsUpper(name[i]))
        || (IsUpper(name[i - 1]) && IsUpper(name[i]) && i + 1 < |name| && IsLower(name[i + 1]))
        || (IsDigit(name[i - 1]) && IsUpper(name[i])))
  }

  /** The first `n` characters of `name` with a separator before each boundary. */
  function SplitUpTo(name: string, n: nat): string
    requires n <= |name|
  {
    if n == 0 then ""
    else SplitUpTo(name, n - 1) + (if Boundary(name, n - 1) then "_" else "") + [name[n - 1]]
  }

  method SplitCaseBoundaries(name: string) returns (out: string)
    ensures out == SplitUpTo(name, |name|)
  {
    out := "";
    for i := 0 to |name|
      invariant out == SplitUpTo(name, i)
    {
      if i > 0 {
        var prev, c := name[i - 1], name[i];
        if || (IsLower(prev) && IsUpper(c))
           || (IsUpper(prev) && IsUpper(c) && i + 1 < |name| && IsLower(name[i + 1]))
           || (IsDigit(prev) && IsUpper(c))
        {
          out := out + "_";
        }
      }
      out := out + [name[i]];
    }
  }

  function Lowered(s: string, lower: char -> string): string {
    if s == "" then "" else Lowered(s[..|s| - 1], lower) + lower(s[|s| - 1])
  }

  // ----- collapsing to the identifier class -----

  /** Keep letters and digits; turn every other run between them into one `_`. */
  function Collapsed(s: string): string {
    if s == "" then ""
    else
      var out, c := Collapsed(s[..|s| - 1]), s[|s| - 1];
      if IsLower(c) || IsDigit(c) then out + [c]
      else if out != "" && out[|out| - 1] != '_' then out + "_"
      else out
  }

  function Trimmed(s: string): string {
    if s != "" && s[|s| - 1] == '_' then Trimmed(s[..|s| - 1]) else s
  }

  function LeftTrimmed(s: string): string {
    if s != "" && s[0] == '_' then LeftTrimmed(s[1..]) else s
  }

  function Guarded(s: string): string {
    if s != "" && IsDigit(s[0]) then "_" + s else s
  }

  function Base(name: string, lower: char -> string): string {
    Guarded(Trimmed(Collapsed(Lowered(SplitUpTo(name, |name|), lower))))
  }

  method DeriveBase(name: string, lower: char -> string) returns (out: string)
    ensures out == Base(name, lower)
  {
    var split := SplitCaseBoundaries(name);
    var lowered := Lowered(split, lower);
    out := "";
    var lastWasUnderscore := false;
    for i := 0 to |lowered|
      invariant out == Collapsed(lowered[..i])
      invariant lastWasUnderscore <==> out != "" && out[|out| - 1] == '_'
    {
      assert lowered[..i + 1][..i] == lowered[..i];
      var c := lowered[i];
      if IsLower(c) || IsDigit(c) {
        out := out + [c];
        lastWasUnderscore := false;
      } else if !lastWasUnderscore && out != "" {
        out := out + "_";
        lastWasUnderscore := true;
      }
    }
    assert lowered[..|lowered|] == lowered;
    while out != "" && out[0] == '_'
      invariant LeftTrimmed(out) == LeftTrimmed(Collapsed(lowered))
      decreases |out|
    {
      out := out[1..];
    }
    CollapsedForm(lowered);
    while out != "" && out[|out| - 1] == '_'
      invariant Trimmed(out) == Trimmed(Collapsed(lowered))
      decreases |out|
    {
      out := out[..|out| - 1];
    }
    if out != "" && IsDigit(out[0]) {
      out := "_" + out;
    }
  }

  function Derived(name: string, prefix: string, lower: char -> string, hash: string -> Hex7): string {
    var composed := prefix + Base(name, lower);
    if |composed| > MAX_BYTES then composed[..TRUNCATE_BYTES] + "_" + hash(composed) else composed
  }

  method Derive(name: string, prefix: string, lower: char -> string, hash: string -> Hex7) returns (sql: string)
    ensures sql == Derived(name, prefix, lower, hash)
  {
    var base := DeriveBase(name, lower);
    sql := if prefix == "" then base else prefix + base;
    assert "" + base == base;
    if |sql| > MAX_BYTES {
      sql := sql[..TRUNCATE_BYTES] + "_" + hash(sql);
    }
  }

  // ----- what a derived name looks like -----

  ghost predicate NoRuns(s: string) {
    forall i | 0 < i < |s| :: s[i - 1] != '_' || s[i] != '_'
  }

  /** The exact form of a derived base: separators single and inside, and a leading
      one only to guard a digit. */
  ghost predicate Canonical(s: string) {
    && AllIdent(s) && NoRuns(s)
    && (s != "" ==> s[|s| - 1] != '_' && !IsDigit(s[0]))
    && (s != "" && s[0] == '_' ==> |s| > 1 && IsDigit(s[1]))
  }

  lemma {:induction false} CollapsedForm(s: string)
    ensures AllIdent(Collapsed(s)) && NoRuns(Collapsed(s))
    ensures Collapsed(s) != "" ==> Collapsed(s)[0] != '_'
    ensures |Collapsed(s)| <= |s|
  {
    if s != "" {
      CollapsedForm(s[..|s| - 1]);
    }
  }

  /** Every derived base has the canonical form, whatever the name. */
  lemma BaseIsCanonical(name: string, lower: char -> string)
    ensures Canonical(Base(name, lower))
  {
    var s := Lowered(SplitUpTo(name, |name|), lower);
    CollapsedForm(s);
    var c := Collapsed(s);
    var t := Trimmed(c);
    TrimmedForm(c);
    assert IsPrefix(t, c);
    var g := Guarded(t);
    if g != t {
      assert forall i | 0 < i < |g| :: g[i] == t[i - 1];
    }
  }

  ghost predicate IsPrefix(t: string, s: string) {
    |t| <= |s| && forall i | 0 <= i < |t| :: t[i] == s[i]
  }

  lemma {:induction false} TrimmedForm(s: string)
    ensures IsPrefix(Trimmed(s), s)
    ensures Trimmed(s) != "" ==> Trimmed(s)[|Trimmed(s)| - 1] != '_'
  {
    if s != "" && s[|s| - 1] == '_' {
      TrimmedForm(s[..|s| - 1]);
    }
  }

  // ----- when nothing is left -----

  /** Some character that an identifier keeps. */
  ghost predicate Usable(s: string) {
    exists i | 0 <= i < |s| :: IsLower(s[i]) || IsDigit(s[i])
  }

  lemma UsableAppend(s: string, t: string)
    ensures Usable(s + t) <==> Usable(s) || Usable(t)
  {
    if Usable(s) {
      var i :| 0 <= i < |s| && (IsLower(s[i]) || IsDigit(s[i]));
      assert (s + t)[i] == s[i];
    }
    if Usable(t) {
      var i :| 0 <= i < |t| && (IsLower(t[i]) || IsDigit(t[i]));
      assert (s + t)[|s| + i] == t[i];
    }
  }

  lemma {:induction false} CollapsedEmptyIff(s: string)
    ensures Collapsed(s) == "" <==> !Usable(s)
  {
    if s != "" {
      var init := s[..|s| - 1];
      CollapsedEmptyIff(init);
      assert s == init + [s[|s| - 1]];
      UsableAppend(init, [s[|s| - 1]]);
      assert [s[|s| - 1]][0] == s[|s| - 1];
    }
  }

  lemma {:induction false} TrimmedKeepsFirst(s: string)
    requires s != "" && s[0] != '_'
    ensures Trimmed(s) != ""
  {
    if s[|s| - 1] == '_' {
      TrimmedKeepsFirst(s[..|s| - 1]);
    }
  }

  lemma {:induction false} LoweredAppend(s: string, t: string, lower: char -> string)
    ensures Lowered(s + t, lower) == Lowered(s, lower) + Lowered(t, lower)
  {
    if t == "" {
      assert s + t == s;
    } else {
      assert (s + t)[..|s + t| - 1] == s + t[..|t| - 1];
      LoweredAppend(s, t[..|t| - 1], lower);
    }
  }

  /** The first `n` characters hold one whose lowercase form is kept. */
  ghost predicate KeptIn(name: string, n: nat, lower: char -> string)
    requires n <= |name|
  {
    exists i | 0 <= i < n :: Usable(lower(name[i]))
  }

  lemma MarkIsNotUsable(mark: string, lower: char -> string)
    requires LowersAscii(lower) && (mark == "" || mark == ['_'])
    ensures !Usable(Lowered(mark, lower))
  {
    if mark != "" {
      OneLowered('_', lower);
      assert lower('_') == ['_'];
    }
  }

  lemma OneMoreUsable(before: string, mark: string, c: char, lower: char -> string)
    requires LowersAscii(lower) && (mark == "" || mark == ['_'])
    ensures Usable(Lowered(before + mark + [c], lower)) <==> Usable(Lowered(before, lower)) || Usable(lower(c))
  {
    LoweredAppend(before + mark, [c], lower);
    LoweredAppend(before, mark, lower);
    UsableAppend(Lowered(before + mark, lower), Lowered([c], lower));
    UsableAppend(Lowered(before, lower), Lowered(mark, lower));
    OneLowered(c, lower);
    MarkIsNotUsable(mark, lower);
  }

  lemma {:induction false} LoweredSplitUsableIff(name: string, n: nat, lower: char -> string)
    requires n <= |name| && LowersAscii(lower)
    ensures Usable(Lowered(SplitUpTo(name, n), lower)) <==> KeptIn(name, n, lower)
  {
    if n > 0 {
      LoweredSplitUsableIff(name, n - 1, lower);
      var mark := if Boundary(name, n - 1) then ['_'] else "";
      OneMoreUsable(SplitUpTo(name, n - 1), mark, name[n - 1], lower);
      assert SplitUpTo(name, n) == SplitUpTo(name, n - 1) + mark + [name[n - 1]];
    }
  }

  lemma OneLowered(c: char, lower: char -> string)
    ensures Lowered([c], lower) == lower(c)
  {
    assert [c][..0] == "";
  }

  /** A derived name is empty exactly when it has no prefix and no character of the
      name lowers to a letter or digit of ASCII. */
  lemma DerivedEmptyIff(name: string, prefix: string, lower: char -> string, hash: string -> Hex7)
    requires LowersAscii(lower)
    ensures Derived(name, prefix, lower, hash) == "" <==> prefix == "" && !KeptIn(name, |name|, lower)
  {
    var s := Lowered(SplitUpTo(name, |name|), lower);
    LoweredSplitUsableIff(name, |name|, lower);
    CollapsedEmptyIff(s);
    CollapsedForm(s);
    if Collapsed(s) != "" {
      TrimmedKeepsFirst(Collapsed(s));
    }
  }

  /** With a plain prefix every derived identifier is plain and fits the limit. */
  lemma DerivedIsPlain(name: string, prefix: string, lower: char -> string, hash: string -> Hex7)
    requires Plain(prefix)
    ensures Plain(Derived(name, prefix, lower, hash)) && |Derived(name, prefix, lower, hash)| <= MAX_BYTES
  {
    BaseIsCanonical(name, lower);
    var composed := prefix + Base(name, lower);
    assert Plain(composed);
    if |composed| > MAX_BYTES {
      var h := hash(composed);
      var d := composed[..TRUNCATE_BYTES] + "_" + h;
      assert forall i | 0 <= i < 7 :: IsIdent(h[i]);
      assert d[0] == composed[0];
    }
  }

  // ----- deriving twice -----

  lemma {:induction false} SplitIsIdentity(s: string, n: nat)
    requires n <= |s| && AllIdent(s)
    ensures SplitUpTo(s, n) == s[..n]
  {
    if n > 0 {
      SplitIsIdentity(s, n - 1);
      assert !Boundary(s, n - 1);
      assert s[..n] == s[..n - 1] + [s[n - 1]];
    }
  }

  lemma LowerKeepsIdent(c: char, lower: char -> string)
    requires IsIdent(c) && LowersAscii(lower)
    ensures lower(c) == [c]
  {
    assert IsAscii(c);
  }

  lemma {:induction false} LoweredIsIdentity(s: string, lower: char -> string)
    requires AllIdent(s) && LowersAscii(lower)
    ensures Lowered(s, lower) == s
  {
    if s != "" {
      LoweredIsIdentity(s[..|s| - 1], lower);
      LowerKeepsIdent(s[|s| - 1], lower);
    }
  }

  /** Collapsing drops at most a leading separator from a string without runs. */
  lemma {:induction false} CollapsedIsIdentity(s: string)
    requires AllIdent(s) && NoRuns(s)
    ensures Collapsed(s) == if s != "" && s[0] == '_' then s[1..] else s
  {
    if s != "" {
      var init := s[..|s| - 1];
      CollapsedIsIdentity(init);
      if |s| > 1 {
        assert init[0] == s[0];
        assert init[1..] == s[1..|s| - 1];
        assert s[1..] == s[1..|s| - 1] + [s[|s| - 1]];
        assert s[|s| - 2] == '_' ==> s[|s| - 1] != '_';
      }
    }
  }

  lemma BaseOfIdent(s: string, lower: char -> string)
    requires AllIdent(s) && LowersAscii(lower)
    ensures Base(s, lower) == Guarded(Trimmed(Collapsed(s)))
  {
    SplitIsIdentity(s, |s|);
    assert s[..|s|] == s;
    LoweredIsIdentity(s, lower);
  }

  lemma CanonicalIsFixed(s: string)
    requires Canonical(s)
    ensures Guarded(Trimmed(Collapsed(s))) == s
  {
    CollapsedIsIdentity(s);
    var c := Collapsed(s);
    if s != "" && s[0] == '_' {
      assert c[|c| - 1] == s[|s| - 1] && c[0] == s[1];
      assert "_" + s[1..] == s;
    }
  }

  /** The canonical strings are exactly the names that derive to themselves. */
  lemma BaseFixedIff(s: string, lower: char -> string)
    requires LowersAscii(lower)
    ensures Base(s, lower) == s <==> Canonical(s)
  {
    if Canonical(s) {
      BaseOfIdent(s, lower);
      CanonicalIsFixed(s);
    } else {
      BaseIsCanonical(s, lower);
    }
  }

  lemma BaseShrinks(s: string, lower: char -> string)
    requires Plain(s) && LowersAscii(lower)
    ensures |Base(s, lower)| <= |s|
  {
    BaseOfIdent(s, lower);
    CollapsedForm(s);
    TrimmedForm(Collapsed(s));
    if s != "" && s[0] == '_' {
      CollapsedDropsLeading(s);
    } else if s != "" {
      CollapsedKeepsFirst(s);
    }
  }

  lemma {:induction false} CollapsedDropsLeading(s: string)
    requires s != "" && s[0] == '_'
    ensures |Collapsed(s)| < |s|
  {
    if |s| > 1 {
      CollapsedDropsLeading(s[..|s| - 1]);
    }
  }

  lemma {:induction false} CollapsedKeepsFirst(s: string)
    requires s != "" && (IsLower(s[0]) || IsDigit(s[0]))
    ensures Collapsed(s) != "" && Collapsed(s)[0] == s[0]
  {
    if |s| > 1 {
      CollapsedKeepsFirst(s[..|s| - 1]);
    }
  }

  /** The name is cut, and right after a separator. */
  predicate CutAfterSeparator(base: string) {
    |base| > MAX_BYTES && base[TRUNCATE_BYTES - 1] == '_'
  }

  /** Deriving a derived name changes nothing, except exactly when the name was cut
      right after a separator: the suffix then makes a run, which derives away. */
  lemma DeriveTwiceIff(name: string, lower: char -> string, hash: string -> Hex7)
    requires LowersAscii(lower)
    ensures var once := Derived(name, "", lower, hash);
            Derived(once, "", lower, hash) == once <==> !CutAfterSeparator(Base(name, lower))
  {
    var b := Base(name, lower);
    var d := Derived(name, "", lower, hash);
    assert "" + b == b;
    BaseIsCanonical(name, lower);
    DerivedIsPlain(name, "", lower, hash);
    BaseFixedIff(d, lower);
    BaseShrinks(d, lower);
    assert "" + Base(d, lower) == Base(d, lower);
    assert Derived(d, "", lower, hash) == Base(d, lower);
    if |b| > MAX_BYTES {
      CutFormIff(b, hash(b));
    }
  }

  lemma CutFormIff(b: string, h: Hex7)
    requires Canonical(b) && |b| > MAX_BYTES
    ensures Canonical(b[..TRUNCATE_BYTES] + "_" + h) <==> b[TRUNCATE_BYTES - 1] != '_'
  {
    var d := b[..TRUNCATE_BYTES] + "_" + h;
    assert d[TRUNCATE_BYTES] == '_' && d[TRUNCATE_BYTES - 1] == b[TRUNCATE_BYTES - 1];
    assert d[0] == b[0] && d[1] == b[1];
    assert forall i | TRUNCATE_BYTES < i < |d| :: d[i] == h[i - TRUNCATE_BYTES - 1] && IsHex(d[i]);
    assert forall i | 0 <= i < TRUNCATE_BYTES :: d[i] == b[i];
  }
}
