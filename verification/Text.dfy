/** Decimal numerals (fmt's %d), and the string forms of owners and of clean absolute paths. */
module Text {

  const DIGITS: string := "0123456789"

  function Decimal(n: nat): (s: string)
    ensures s != "" && forall c | c in s :: '0' <= c <= '9'
  {
    if n < 10 then [DIGITS[n]] else Decimal(n / 10) + [DIGITS[n % 10]]
  }

  function Signed(n: int): string {
    if n < 0 then "-" + Decimal(-n) else Decimal(n)
  }

  /** Distinct numbers have distinct numerals, so a list index works as a map key. */
  lemma {:induction false} DecimalInjective(a: nat, b: nat)
    requires Decimal(a) == Decimal(b)
    ensures a == b
  {
    var s := Decimal(a);
    assert s[|s| - 1] == DIGITS[a % 10] == DIGITS[b % 10];
    assert a % 10 == b % 10;
    if a >= 10 && b >= 10 {
      assert s[..|s| - 1] == Decimal(a / 10) == Decimal(b / 10);
      DecimalInjective(a / 10, b / 10);
    } else {
      assert a < 10 <==> |s| == 1;
      assert b < 10 <==> |s| == 1;
    }
  }

  // ---------------------------------------------------------------- reading numbers back

  predicate AreDigits(s: string) { forall i | 0 <= i < |s| :: '0' <= s[i] <= '9' }

  function ValueOf(s: string): nat
    requires AreDigits(s)
  {
    if s == "" then 0 else 10 * ValueOf(s[..|s| - 1]) + (s[|s| - 1] as int - '0' as int)
  }

  /** A decimal numeral of n, without leading zeros. */
  predicate Numeral(s: string, n: nat) {
    s != "" && AreDigits(s) && ValueOf(s) == n && (|s| > 1 ==> s[0] != '0')
  }

  /** How n is written in base 10: a minus sign if it is negative, and its numeral. */
  predicate Spells(s: string, n: int) {
    if n < 0 then s != "" && s[0] == '-' && Numeral(s[1..], -n) else Numeral(s, n)
  }

  lemma {:induction false} DecimalReads(n: nat)
    ensures Numeral(Decimal(n), n) && (n > 0 ==> Decimal(n)[0] != '0')
  {
    if n >= 10 {
      DecimalReads(n / 10);
      assert Decimal(n)[..|Decimal(n)| - 1] == Decimal(n / 10);
    }
  }

  lemma SignedSpells(n: int)
    ensures Spells(Signed(n), n)
  {
    DecimalReads(if n < 0 then -n else n);
    if n < 0 { assert Signed(n)[1..] == Decimal(-n); }
  }

  // ---------------------------------------------------------------- pairs with a colon

  function Colons(s: string): nat {
    if s == "" then 0 else (if s[0] == ':' then 1 else 0) + Colons(s[1..])
  }

  /** The parts of a string before and after its first colon. */
  function BeforeColon(s: string): string {
    if s == "" || s[0] == ':' then "" else [s[0]] + BeforeColon(s[1..])
  }

  function AfterColon(s: string): string {
    if s == "" then "" else if s[0] == ':' then s[1..] else AfterColon(s[1..])
  }

  predicate WithoutColon(s: string) { forall i | 0 <= i < |s| :: s[i] != ':' }

  lemma {:induction false} NoColon(s: string)
    requires WithoutColon(s)
    ensures Colons(s) == 0
  {
    if s != "" { NoColon(s[1..]); }
  }

  lemma {:induction false} SplitAtColon(u: string, v: string)
    requires WithoutColon(u)
    ensures BeforeColon(u + ":" + v) == u && AfterColon(u + ":" + v) == v
    ensures Colons(u + ":" + v) == 1 + Colons(v)
  {
    var s := u + ":" + v;
    if u == "" {
      assert s[1..] == v;
    } else {
      assert s[1..] == u[1..] + ":" + v;
      SplitAtColon(u[1..], v);
    }
  }

  lemma {:induction false} JoinAtColon(s: string)
    requires Colons(s) > 0
    ensures s == BeforeColon(s) + ":" + AfterColon(s)
  {
    if s[0] != ':' { JoinAtColon(s[1..]); }
  }

  /** Two numbers with a colon between them are read back. */
  lemma PairSpells(m: int, n: int)
    ensures var t := Signed(m) + ":" + Signed(n);
            Colons(t) == 1 && Spells(BeforeColon(t), m) && Spells(AfterColon(t), n)
  {
    SignedSpells(m);
    SignedSpells(n);
    SpelledHasNoColon(Signed(m), m);
    SpelledHasNoColon(Signed(n), n);
    SplitAtColon(Signed(m), Signed(n));
    NoColon(Signed(n));
  }

  lemma SpelledHasNoColon(s: string, n: int)
    requires Spells(s, n)
    ensures WithoutColon(s)
  {
    if n < 0 {
      forall i | 0 < i < |s| ensures s[i] != ':' { assert s[i] == s[1..][i - 1]; }
    }
  }

  // ---------------------------------------------------------------- paths

  /** A path as its list of components; the empty list is the root directory. */
  type Path = seq<string>

  /** A component of a cleaned path. */
  predicate Component(c: string) {
    c != "" && c != "." && c != ".." && '/' !in c
  }

  predicate CleanPath(p: Path) {
    p != [] && forall i | 0 <= i < |p| :: Component(p[i])
  }

  /** "/a/b" for [a, b]. */
  function Render(p: Path): string {
    if p == [] then "" else Render(p[..|p| - 1]) + "/" + p[|p| - 1]
  }

  /** The part of a string before its last slash. */
  function BeforeLastSlash(s: string): string {
    if s == "" then "" else if s[|s| - 1] == '/' then s[..|s| - 1] else BeforeLastSlash(s[..|s| - 1])
  }

  /** filepath.Dir, for strings that are already clean. */
  function DirOf(s: string): string {
    if BeforeLastSlash(s) == "" then "/" else BeforeLastSlash(s)
  }

  /** strings.TrimPrefix(s, "/"). */
  function TrimSlash(s: string): string {
    if s != "" && s[0] == '/' then s[1..] else s
  }

  /** strings.TrimLeft(s, "/"). */
  function TrimSlashes(s: string): string {
    if s != "" && s[0] == '/' then TrimSlashes(s[1..]) else s
  }

  /** strings.Split(s, "/"). */
  function Split(s: string): Path
    decreases |s|
  {
    if '/' !in s then [s]
    else
      LastSlash(s);
      var head := BeforeLastSlash(s);
      Split(head) + [s[|head| + 1..]]
  }

  lemma {:induction false} LastSlash(s: string)
    requires '/' in s
    ensures var h := BeforeLastSlash(s);
            |h| < |s| && s == h + "/" + s[|h| + 1..] && '/' !in s[|h| + 1..]
  {
    if s[|s| - 1] != '/' {
      LastSlash(s[..|s| - 1]);
    }
  }

  lemma {:induction false} BeforeLast(s: string, c: string)
    requires '/' !in c
    ensures BeforeLastSlash(s + "/" + c) == s
  {
    var t := s + "/" + c;
    if c == "" {
      assert t[..|t| - 1] == s;
    } else {
      assert c[|c| - 1] in c;
      assert t[..|t| - 1] == s + "/" + c[..|c| - 1];
      BeforeLast(s, c[..|c| - 1]);
    }
  }

  lemma SplitLast(s: string, c: string)
    requires '/' !in c
    ensures Split(s + "/" + c) == Split(s) + [c]
  {
    var t := s + "/" + c;
    BeforeLast(s, c);
    assert t[|s|] == '/';
    assert t[|s| + 1..] == c;
  }

  /** A rendered path can be read back, so rendering loses nothing. */
  lemma {:induction false} SplitRender(p: Path)
    requires CleanPath(p)
    ensures Split(Render(p)) == [""] + p
  {
    var front, last := p[..|p| - 1], p[|p| - 1];
    assert Component(last);
    SplitLast(Render(front), last);
    assert p == front + [last];
    if front != [] {
      SplitRender(front);
      assert [""] + front + [last] == [""] + p;
    } else {
      assert Split("") == [""];
    }
  }

  /** The parent directory: all components but the last; the root is its own parent. */
  function Parent(p: Path): Path {
    if p == [] then [] else p[..|p| - 1]
  }

  lemma {:induction false} RenderConcat(p: Path, q: Path)
    ensures Render(p + q) == Render(p) + Render(q)
  {
    if q == [] {
      assert p + q == p;
    } else {
      assert (p + q)[..|p + q| - 1] == p + q[..|q| - 1];
      RenderConcat(p, q[..|q| - 1]);
    }
  }

  /** The string operations of the pod builder are the operations on components used in this
      model: Dir drops the last component, concatenation with "/knuu" (and filepath.Join with
      it) puts one in front, and both ways of trimming leave the relative path. */
  lemma StringOperations(p: Path)
    requires CleanPath(p)
    ensures |p| >= 2 ==> DirOf(Render(p)) == Render(Parent(p))
    ensures "/knuu" + Render(p) == Render(["knuu"] + p)
    ensures "/" + TrimSlash(Render(p)) == Render(p)
    ensures TrimSlashes(Render(p)) == TrimSlash(Render(p))
  {
    if |p| >= 2 {
      DirOfRender(p);
    }
    KnuuPrefix(p);
    SlashTrimmed(p);
  }

  lemma SlashTrimmed(p: Path)
    requires CleanPath(p)
    ensures "/" + TrimSlash(Render(p)) == Render(p) && TrimSlashes(Render(p)) == TrimSlash(Render(p))
  {
    StartsWithSlash(p);
  }

  lemma DirOfRender(p: Path)
    requires CleanPath(p) && |p| >= 2
    ensures DirOf(Render(p)) == Render(Parent(p))
  {
    assert Component(p[|p| - 1]);
    BeforeLast(Render(Parent(p)), p[|p| - 1]);
    StartsWithSlash(Parent(p));
  }

  lemma KnuuPrefix(p: Path)
    ensures "/knuu" + Render(p) == Render(["knuu"] + p)
  {
    RenderConcat(["knuu"], p);
    assert ["knuu"][..0] == [];
    assert Render(["knuu"]) == "" + "/" + "knuu";
  }

  lemma {:induction false} StartsWithSlash(p: Path)
    requires CleanPath(p)
    ensures |Render(p)| >= 2 && Render(p)[0] == '/' && Render(p)[1] != '/'
  {
    if |p| == 1 {
      assert Render(p) == "/" + p[0];
      assert p[0][0] in p[0];
    } else {
      StartsWithSlash(Parent(p));
    }
  }
}
