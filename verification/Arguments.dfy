/** The checks on the arguments of AddFile. */
module Arguments {

  import opened Wrappers
  import opened Text
  import opened PodSpec
  import opened Lifecycle

  const TWO_TO_THE_63: nat := 0x8000_0000_0000_0000

  /** What ParseInt accepts in base 10 for 64 bits: a sign or none, then digits, within the range. */
  predicate IsInt64(s: string) {
    if s == "" then false
    else
      var digits := if s[0] == '+' || s[0] == '-' then s[1..] else s;
      && digits != "" && AreDigits(digits)
      && if s[0] == '-' then ValueOf(digits) <= TWO_TO_THE_63 else ValueOf(digits) < TWO_TO_THE_63
  }

  function ChownError(chown: string): Option<Error> {
    if chown == "" then Some(ErrChownMustBeSet)
    else if Colons(chown) != 1 then Some(ErrChownMustBeInFormatUserGroup)
    else if !IsInt64(BeforeColon(chown)) || !IsInt64(AfterColon(chown)) then Some(ErrFailedToConvertToInt64)
    else None
  }

  /** validateFileArgs and checkSrcExists; of a source that does not exist there is no content. */
  function FileArgsError(src: string, content: Option<string>, dest: Path, chown: string): Option<Error> {
    if src == "" then Some(ErrSrcMustBeSet)
    else if dest == [] then Some(ErrDestMustBeSet)
    else if ChownError(chown).Some? then ChownError(chown)
    else if content.None? then Some(ErrSrcDoesNotExist)
    else None
  }

  lemma ContentGiven(src: string, content: Option<string>, dest: Path, chown: string)
    ensures FileArgsError(src, content, dest, chown).None? ==> content.Some?
  {
  }

  lemma Int64HasNoColon(s: string)
    requires IsInt64(s)
    ensures WithoutColon(s)
  {
    forall i | 0 < i < |s| ensures s[i] != ':' { assert s[i] == s[1..][i - 1]; }
  }

  /** An owner is accepted exactly when it is two 64-bit numbers with a colon between them. */
  lemma ChownAccepted(chown: string)
    ensures ChownError(chown).None? <==> exists u, v :: IsInt64(u) && IsInt64(v) && chown == u + ":" + v
  {
    if ChownError(chown).None? {
      JoinAtColon(chown);
    }
    if u, v :| IsInt64(u) && IsInt64(v) && chown == u + ":" + v {
      Int64HasNoColon(u);
      Int64HasNoColon(v);
      SplitAtColon(u, v);
      NoColon(v);
    }
  }

  /** Of the numbers themselves exactly those that fit into 64 bits are accepted. */
  lemma NumbersAccepted(n: int)
    ensures IsInt64(Signed(n)) <==> 0 - TWO_TO_THE_63 <= n < TWO_TO_THE_63
  {
    SignedSpells(n);
  }

  /** The arguments are accepted exactly when all of them are in order, and each of the complaints
      comes exactly when those before it do not apply. */
  lemma ArgumentsAccepted(src: string, content: Option<string>, dest: Path, chown: string)
    ensures var e := FileArgsError(src, content, dest, chown);
            && (e == Some(ErrSrcMustBeSet) <==> src == "")
            && (e == Some(ErrDestMustBeSet) <==> src != "" && dest == [])
            && (e == Some(ErrChownMustBeSet) <==> src != "" && dest != [] && chown == "")
            && (e == Some(ErrSrcDoesNotExist) <==>
                src != "" && dest != [] && content.None?
                && exists u, v :: IsInt64(u) && IsInt64(v) && chown == u + ":" + v)
            && (e == None <==>
                src != "" && dest != [] && content.Some?
                && exists u, v :: IsInt64(u) && IsInt64(v) && chown == u + ":" + v)
  {
    ChownAccepted(chown);
    if chown == "" { assert forall u, v: string :: |u + ":" + v| > 0; }
  }
}
