/** SanitizeName: every Kubernetes name the program uses goes through this normaliser
    onto DNS-1123 labels (section 2.1 of RFC 1123). */
module Names {

  import opened Wrappers

  const MAX_LABEL := 63

  /** Lower-casing of one code point, as far as the result can be seen after the invalid
      characters are replaced: besides 'A'..'Z', exactly two code points have an ASCII
      lower case, the Kelvin sign and the dotted capital I. */
  function LowerChar(c: char): char {
    if 'A' <= c <= 'Z' then 'a' + (c - 'A')
    else if c == '\U{212A}' then 'k'
    else if c == '\U{0130}' then 'i'
    else c
  }

  function ToLower(s: string): (r: string)
    ensures |r| == |s|
    ensures forall i :: 0 <= i < |s| ==> r[i] == LowerChar(s[i])
  {
    if s == "" then "" else [LowerChar(s[0])] + ToLower(s[1..])
  }

  predicate Alnum(c: char) { 'a' <= c <= 'z' || '0' <= c <= '9' }

  predicate Allowed(c: char) { Alnum(c) || c == '-' }

  /** Drops the longest prefix of characters that are not allowed. */
  function SkipInvalid(s: string): (r: string)
    ensures |r| <= |s| && r == s[|s| - |r|..]
    ensures forall i :: 0 <= i < |s| - |r| ==> !Allowed(s[i])
    ensures r != "" ==> Allowed(r[0])
  {
    if s == "" || Allowed(s[0]) then s else SkipInvalid(s[1..])
  }

  /** Every maximal run of characters that are not allowed becomes one hyphen. */
  function ReplaceInvalid(s: string): (r: string)
    ensures forall c | c in r :: Allowed(c)
    decreases |s|
  {
    if s == "" then ""
    else if Allowed(s[0]) then [s[0]] + ReplaceInvalid(s[1..])
    else "-" + ReplaceInvalid(SkipInvalid(s[1..]))
  }

  function TrimLeft(s: string): (r: string)
    ensures |r| <= |s| && r == s[|s| - |r|..]
    ensures forall i :: 0 <= i < |s| - |r| ==> s[i] == '-'
    ensures r != "" ==> r[0] != '-'
  {
    if s != "" && s[0] == '-' then TrimLeft(s[1..]) else s
  }

  function TrimRight(s: string): (r: string)
    ensures r <= s
    ensures forall i :: |r| <= i < |s| ==> s[i] == '-'
    ensures r != "" ==> r[|r| - 1] != '-'
  {
    if s != "" && s[|s| - 1] == '-' then TrimRight(s[..|s| - 1]) else s
  }

  function Truncate(s: string): string {
    if |s| > MAX_LABEL then TrimRight(s[..MAX_LABEL]) else s
  }

  function Normalise(name: string): string {
    TrimRight(TrimLeft(ReplaceInvalid(ToLower(name))))
  }

  /** None stands for the panic on an empty result. */
  function SanitizeName(name: string): Option<string> {
    var cut := Truncate(Normalise(name));
    if cut == "" then None else Some(cut)
  }

  /** A DNS-1123 label: 1 to 63 characters of [a-z0-9-], alphanumeric at both ends. */
  predicate IsLabel(s: string) {
    && 1 <= |s| <= MAX_LABEL
    && (forall c | c in s :: Allowed(c))
    && Alnum(s[0]) && Alnum(s[|s| - 1])
  }

  /** The letters and digits of a string, in order: what a reader recognises a name by. */
  function Alnums(s: string): string {
    if s == "" then "" else (if Alnum(s[0]) then [s[0]] else "") + Alnums(s[1..])
  }

  lemma {:induction false} AlnumsSome(s: string)
    ensures Alnums(s) != "" <==> exists c :: c in s && Alnum(c)
  {
    if s != "" {
      AlnumsSome(s[1..]);
      assert forall c :: c in s <==> c == s[0] || c in s[1..];
    }
  }

  lemma Regroup(a: string, b: string, c: string)
    ensures a + b + c == a + (b + c)
  {
  }

  lemma {:induction false} AlnumsConcat(s: string, t: string)
    ensures Alnums(s + t) == Alnums(s) + Alnums(t)
  {
    if s == "" {
      assert s + t == t;
    } else {
      assert (s + t)[0] == s[0] && (s + t)[1..] == s[1..] + t;
      AlnumsConcat(s[1..], t);
      Regroup(if Alnum(s[0]) then [s[0]] else "", Alnums(s[1..]), Alnums(t));
    }
  }

  lemma {:induction false} AlnumsNone(s: string)
    requires forall c | c in s :: !Alnum(c)
    ensures Alnums(s) == ""
  {
    AlnumsSome(s);
  }

  lemma {:induction false} AlnumsReplace(s: string)
    ensures Alnums(ReplaceInvalid(s)) == Alnums(s)
    decreases |s|
  {
    if s == "" {
    } else if Allowed(s[0]) {
      AlnumsReplace(s[1..]);
      assert ReplaceInvalid(s)[1..] == ReplaceInvalid(s[1..]);
    } else {
      var rest := SkipInvalid(s[1..]);
      AlnumsReplace(rest);
      var dropped := s[..|s| - |rest|];
      assert s == dropped + rest;
      forall c | c in dropped ensures !Alnum(c) {}
      AlnumsNone(dropped);
      AlnumsConcat(dropped, rest);
      assert ReplaceInvalid(s)[1..] == ReplaceInvalid(rest);
    }
  }

  lemma AlnumsTrimRight(s: string)
    ensures Alnums(TrimRight(s)) == Alnums(s)
  {
    var r := TrimRight(s);
    assert s == r + s[|r|..];
    AlnumsNone(s[|r|..]);
    AlnumsConcat(r, s[|r|..]);
  }

  lemma AlnumsTrimLeft(s: string)
    ensures Alnums(TrimLeft(s)) == Alnums(s)
  {
    var r := TrimLeft(s);
    var dropped := s[..|s| - |r|];
    assert s == dropped + r;
    AlnumsNone(dropped);
    AlnumsConcat(dropped, r);
  }

  /** Lower-case, made of allowed characters, alphanumeric at both ends, of any length. */
  predicate Clean(s: string) {
    && (forall c | c in s :: Allowed(c))
    && (s != "" ==> Alnum(s[0]) && Alnum(s[|s| - 1]))
  }

  /** What the three normalising steps before truncation keep and establish. */
  lemma Normalised(name: string)
    ensures Clean(Normalise(name))
    ensures Alnums(Normalise(name)) == Alnums(ToLower(name))
    ensures |Normalise(name)| <= |name|
  {
    var r := ReplaceInvalid(ToLower(name));
    var l := TrimLeft(r);
    var t := TrimRight(l);
    AlnumsReplace(ToLower(name));
    ReplaceShortens(ToLower(name));
    AlnumsTrimLeft(r);
    AlnumsTrimRight(l);
    forall i | 0 <= i < |t| ensures Allowed(t[i]) {
      assert t[i] == l[i] == r[|r| - |l| + i];
    }
    if t != "" {
      assert t[0] == l[0];
      assert Allowed(t[0]) && Allowed(t[|t| - 1]);
    }
  }

  /** Truncation keeps a clean string clean and, in particular, never empties it. */
  lemma Truncated(s: string)
    requires Clean(s) && s != ""
    ensures IsLabel(Truncate(s)) && Alnums(Truncate(s)) <= Alnums(s)
  {
    if |s| > MAX_LABEL {
      var head := s[..MAX_LABEL];
      var r := TrimRight(head);
      AlnumsTrimRight(head);
      assert s == head + s[MAX_LABEL..];
      AlnumsConcat(head, s[MAX_LABEL..]);
      assert head[0] == s[0] && s[0] != '-';
      assert r != "";
      forall i | 0 <= i < |r| ensures Allowed(r[i]) {
        assert r[i] == s[i];
      }
      assert Allowed(r[|r| - 1]);
    }
  }

  /** Every name that does not panic is a valid label, and its letters and digits are those
      of the lower-cased input, cut short only when the normalised input is too long. */
  lemma SanitizedIsLabel(name: string)
    requires SanitizeName(name).Some?
    ensures IsLabel(SanitizeName(name).value)
    ensures Alnums(SanitizeName(name).value) <= Alnums(ToLower(name))
    ensures |name| <= MAX_LABEL ==> Alnums(SanitizeName(name).value) == Alnums(ToLower(name))
  {
    Normalised(name);
    Truncated(Normalise(name));
  }

  /** The panic: exactly when the lower-cased input has no letter or digit. In particular
      truncating and trimming again can never empty a name. */
  lemma PanicsExactlyWithoutAlnum(name: string)
    ensures SanitizeName(name).None? <==> forall c | c in ToLower(name) :: !Alnum(c)
  {
    var t := Normalise(name);
    Normalised(name);
    AlnumsSome(t);
    AlnumsSome(ToLower(name));
    if t != "" {
      Truncated(t);
      assert t[0] in t && Alnum(t[0]);
    }
    assert Alnums(ToLower(name)) == "" <==> forall c | c in ToLower(name) :: !Alnum(c);
  }

  lemma {:induction false} ReplaceShortens(s: string)
    ensures |ReplaceInvalid(s)| <= |s|
    decreases |s|
  {
    if s == "" {
    } else if Allowed(s[0]) {
      ReplaceShortens(s[1..]);
    } else {
      ReplaceShortens(SkipInvalid(s[1..]));
    }
  }

  lemma {:induction false} ReplaceKeepsAllowed(s: string)
    requires forall c | c in s :: Allowed(c)
    ensures ReplaceInvalid(s) == s
  {
    if s != "" {
      ReplaceKeepsAllowed(s[1..]);
      assert s == [s[0]] + s[1..];
    }
  }

  /** What happens to a string that is already clean, whatever its length. */
  lemma SanitizeClean(s: string)
    requires Clean(s) && s != ""
    ensures SanitizeName(s) == Some(Truncate(s))
  {
    var low := ToLower(s);
    forall i | 0 <= i < |s| ensures low[i] == s[i] { assert s[i] in s; }
    assert low == s;
    ReplaceKeepsAllowed(s);
    assert TrimLeft(s) == s;
    assert TrimRight(s) == s;
    assert Normalise(s) == s;
    Truncated(s);
  }

  /** The fixed points are exactly the valid labels. */
  lemma FixedPointsAreLabels(s: string)
    ensures SanitizeName(s) == Some(s) <==> IsLabel(s)
  {
    if IsLabel(s) {
      SanitizeClean(s);
    }
    if SanitizeName(s) == Some(s) {
      SanitizedIsLabel(s);
    }
  }

  lemma SanitizeIdempotent(name: string)
    requires SanitizeName(name).Some?
    ensures SanitizeName(SanitizeName(name).value) == SanitizeName(name)
  {
    SanitizedIsLabel(name);
    FixedPointsAreLabels(SanitizeName(name).value);
  }

  /** The name of a sidecar: parent, hyphen, suffix. It survives whole exactly when it fits,
      and collapses onto the parent's own name exactly when the parent has 62 or 63 characters,
      in which case registering the sidecar always finds the name taken. */
  lemma SidecarName(parent: string, suffix: string)
    requires IsLabel(parent) && IsLabel(suffix)
    ensures var joined := parent + "-" + suffix;
            && (|joined| <= MAX_LABEL <==> SanitizeName(joined) == Some(joined))
            && (|parent| >= 62 <==> SanitizeName(joined) == Some(parent))
  {
    var joined := parent + "-" + suffix;
    JoinedClean(parent, suffix);
    SanitizeClean(joined);
    if |joined| > MAX_LABEL {
      CutJoined(parent, suffix);
      assert |Truncate(joined)| <= MAX_LABEL;
    } else {
      assert Truncate(joined) == joined && |parent| < 62;
    }
  }

  lemma JoinedClean(parent: string, suffix: string)
    requires IsLabel(parent) && IsLabel(suffix)
    ensures Clean(parent + "-" + suffix)
  {
    var joined := parent + "-" + suffix;
    forall i | 0 <= i < |joined| ensures Allowed(joined[i]) {
      if i < |parent| { assert joined[i] == parent[i]; }
      if i > |parent| { assert joined[i] == suffix[i - |parent| - 1]; }
    }
    assert joined[0] == parent[0] && joined[|joined| - 1] == suffix[|suffix| - 1];
  }

  lemma CutJoined(parent: string, suffix: string)
    requires IsLabel(parent) && IsLabel(suffix) && |parent + "-" + suffix| > MAX_LABEL
    ensures var cut := TrimRight((parent + "-" + suffix)[..MAX_LABEL]);
            (|parent| >= 62 <==> cut == parent)
  {
    var head := (parent + "-" + suffix)[..MAX_LABEL];
    if |parent| == 63 {
      assert head == parent;
    } else if |parent| == 62 {
      assert head == parent + "-";
      assert head[..62] == parent;
    } else {
      assert head[|parent| + 1] == suffix[0];
      assert |TrimRight(head)| > |parent| + 1;
    }
  }

  // ---------------------------------------------------------------- what the result looks like

  lemma SkipRun(run: string, v: string)
    requires (forall i | 0 <= i < |run| :: !Allowed(run[i])) && (v == "" || Allowed(v[0]))
    ensures SkipInvalid(run + v) == v
  {
    if run == "" {
      assert run + v == v;
    } else {
      assert (run + v)[1..] == run[1..] + v;
      SkipRun(run[1..], v);
    }
  }

  lemma FirstOf(u: string, t: string)
    requires u != ""
    ensures (u + t)[0] == u[0] && (u + t)[1..] == u[1..] + t
  {
  }

  lemma AllowedStay(u: string, t: string)
    requires forall i | 0 <= i < |u| :: Allowed(u[i])
    ensures ReplaceInvalid(u + t) == u + ReplaceInvalid(t)
    decreases |u|
  {
    if u == "" {
      assert u + t == t && u + ReplaceInvalid(t) == ReplaceInvalid(t);
    } else {
      FirstOf(u, t);
      AllowedStay(u[1..], t);
      Regroup([u[0]], u[1..], ReplaceInvalid(t));
      assert [u[0]] + u[1..] == u;
    }
  }

  /** Allowed characters stay, and a run of others becomes one hyphen. */
  lemma RunReplaced(u: string, run: string, v: string)
    requires forall i | 0 <= i < |u| :: Allowed(u[i])
    requires run != "" && forall i | 0 <= i < |run| :: !Allowed(run[i])
    requires v == "" || Allowed(v[0])
    ensures ReplaceInvalid(u + (run + v)) == u + ("-" + ReplaceInvalid(v))
  {
    AllowedStay(u, run + v);
    FirstOf(run, v);
    SkipRun(run[1..], v);
  }

  lemma CleanStays(s: string)
    requires Clean(s)
    ensures TrimRight(TrimLeft(s)) == s
  {
  }

  lemma LowerParts(s: string, t: string)
    ensures ToLower(s + t) == ToLower(s) + ToLower(t)
  {
  }

  lemma LowerLabel(u: string)
    requires IsLabel(u)
    ensures ToLower(u) == u
  {
    forall i | 0 <= i < |u| ensures ToLower(u)[i] == u[i] { assert u[i] in u; }
  }

  lemma LowerBetween(u: string, run: string, v: string)
    requires IsLabel(u) && IsLabel(v)
    ensures ToLower(u + run + v) == u + (ToLower(run) + v)
  {
    Regroup(u, run, v);
    LowerParts(u, run + v);
    LowerParts(run, v);
    LowerLabel(u);
    LowerLabel(v);
  }

  lemma ReplacedBetween(u: string, low: string, v: string)
    requires IsLabel(u) && IsLabel(v) && low != "" && forall i | 0 <= i < |low| :: !Allowed(low[i])
    ensures ReplaceInvalid(u + (low + v)) == u + "-" + v
  {
    forall i | 0 <= i < |u| ensures Allowed(u[i]) { assert u[i] in u; }
    RunReplaced(u, low, v);
    ReplaceKeepsAllowed(v);
    Regroup(u, "-", v);
  }

  /** Between two labels any run of characters that are not allowed becomes one hyphen. */
  lemma RunsBecomeHyphens(u: string, run: string, v: string)
    requires IsLabel(u) && IsLabel(v) && |u + "-" + v| <= MAX_LABEL
    requires run != "" && forall i | 0 <= i < |run| :: !Allowed(LowerChar(run[i]))
    ensures SanitizeName(u + run + v) == Some(u + "-" + v)
  {
    LowerBetween(u, run, v);
    ReplacedBetween(u, ToLower(run), v);
    JoinedClean(u, v);
    CleanStays(u + "-" + v);
  }

  /** Capital letters do not matter. */
  lemma CapitalsDoNotMatter(name: string, u: string)
    requires IsLabel(u) && |name| == |u|
    requires forall i | 0 <= i < |u| ::
               name[i] == u[i] || ('A' <= name[i] <= 'Z' && name[i] as int + 32 == u[i] as int)
    ensures SanitizeName(name) == Some(u)
  {
    forall i | 0 <= i < |u| ensures ToLower(name)[i] == u[i] { assert u[i] in u; }
    assert ToLower(name) == u;
    LowerLabel(u);
    assert Normalise(name) == Normalise(u);
    FixedPointsAreLabels(u);
  }

  /** A longer name loses what exceeds 63 characters, and the hyphens before that. */
  lemma LongNameCut(s: string)
    requires Clean(s) && |s| > MAX_LABEL
    ensures SanitizeName(s).Some?
    ensures var r := SanitizeName(s).value; r <= s && |r| <= 63 && forall i | |r| <= i < 63 :: s[i] == '-'
  {
    SanitizeClean(s);
    var r := TrimRight(s[..MAX_LABEL]);
    forall i | |r| <= i < 63 ensures s[i] == '-' { assert s[..MAX_LABEL][i] == s[i]; }
  }
}
