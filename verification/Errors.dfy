/** The program's error values: a mutable object per error code, whose Wrap accumulates
    other errors in place, so that the graph of wrapped errors may contain cycles. */
module Errors {

  import opened Wrappers

  /** What a variable of Go's type error can hold. A chained error (one made by fmt.Errorf
      with %w) has rendered its text when it was made, but can still be searched. */
  datatype Err =
    | Nil
    | Plain(text: string)
    | Chain(text: string, inner: Err)
    | Coded(e: Error)
    | Join(errs: seq<Err>)

  /** fmt.Sprintf. */
  type Format = (string, seq<string>) -> string

  class Error {
    const code: string
    const message: string
    var err: Err
    var params: seq<string>
    /** Every argument Wrap was ever called with, in order. */
    ghost var history: seq<Err>

    ghost predicate Valid()
      reads this
    {
      err == WrapAll(history)
    }

    constructor (code: string, message: string)
      ensures Valid() && this.code == code && this.message == message
      ensures err == Nil && params == [] && history == []
    {
      this.code, this.message := code, message;
      err, params, history := Nil, [], [];
    }

    method Wrap(x: Err)
      requires Valid()
      modifies this`err, this`history
      ensures Valid() && history == old(history) + [x]
      ensures err == JoinErrors(old(err), x)
    {
      err := JoinErrors(err, x);
      history := history + [x];
      assert history[..|history| - 1] == old(history);
    }

    method WithParams(params: seq<string>)
      modifies this`params
      ensures this.params == params
    {
      this.params := params;
    }

    /** Comparison by code, as errors.Is calls it. */
    predicate Is(target: Err) {
      target.Coded? && target.e.code == code
    }
  }

  /** errors.Join of two values: nil operands are dropped. */
  function JoinErrors(a: Err, b: Err): Err {
    if a == Nil && b == Nil then Nil
    else if a == Nil then Join([b])
    else if b == Nil then Join([a])
    else Join([a, b])
  }

  /** The value a sequence of Wrap calls leaves in a fresh error. */
  ghost function WrapAll(xs: seq<Err>): Err {
    if xs == [] then Nil else JoinErrors(WrapAll(xs[..|xs| - 1]), xs[|xs| - 1])
  }

  /** errors.Is against an error of the given code: joins and chains are searched, the
      contents of a coded error are not, because it has no Unwrap. */
  predicate HasCode(x: Err, code: string) {
    match x
    case Nil => false
    case Plain(_) => false
    case Chain(_, inner) => HasCode(inner, code)
    case Coded(e) => e.code == code
    case Join(errs) => exists i | 0 <= i < |errs| :: HasCode(errs[i], code)
  }

  /** The coded errors whose Error() is called to render x. */
  ghost function Leaves(x: Err): set<Error> {
    match x
    case Coded(e) => {e}
    case Join(errs) => set i, e | 0 <= i < |errs| && e in Leaves(errs[i]) :: e
    case _ => {}
  }

  /** Error() run with at most `fuel` further nested calls of Error(); None if that is not
      enough. An error that contains its own code renders as its raw message. */
  ghost function Render(e: Error, fuel: nat, fmt: Format, all: set<Error>): Option<string>
    requires e in all
    reads all
    decreases fuel, 1
  {
    if HasCode(e.err, e.code) then Some(e.message)
    else
      var msg := fmt(e.message, e.params);
      if e.err == Nil then Some(msg)
      else
        match Text(e.err, fuel, fmt, all)
        case None => None
        case Some(t) => Some(msg + ": " + t)
  }

  ghost function Text(x: Err, fuel: nat, fmt: Format, all: set<Error>): Option<string>
    reads all
    decreases fuel, 0, x
  {
    match x
    case Nil => Some("<nil>")
    case Plain(text) => Some(text)
    case Chain(text, _) => Some(text)
    case Coded(e) => if fuel == 0 || e !in all then None else Render(e, fuel - 1, fmt, all)
    case Join(errs) => Lines(errs, fuel, fmt, all)
  }

  /** The texts of the elements, separated by newlines. */
  ghost function Lines(errs: seq<Err>, fuel: nat, fmt: Format, all: set<Error>): Option<string>
    reads all
    decreases fuel, 0, errs
  {
    if errs == [] then Some("")
    else if |errs| == 1 then Text(errs[0], fuel, fmt, all)
    else
      match (Text(errs[0], fuel, fmt, all), Lines(errs[1..], fuel, fmt, all))
      case (Some(first), Some(rest)) => Some(first + "\n" + rest)
      case _ => None
  }

  /** All errors that can be reached are accounted for. */
  ghost predicate Closed(all: set<Error>)
    reads all
  {
    forall e | e in all :: Leaves(e.err) <= all
  }

  /** Every error that does not contain its own code wraps only errors of lower rank. */
  ghost predicate WellRanked(all: set<Error>, rank: map<Error, nat>)
    reads all
  {
    && all <= rank.Keys
    && forall e, f | e in all && f in rank && !HasCode(e.err, e.code) && f in Leaves(e.err) :: rank[f] < rank[e]
  }

  lemma {:induction false} TextFinishes(x: Err, fuel: nat, fmt: Format, all: set<Error>, rank: map<Error, nat>)
    requires Closed(all) && WellRanked(all, rank) && Leaves(x) <= all
    requires forall f | f in Leaves(x) :: rank[f] < fuel
    ensures Text(x, fuel, fmt, all).Some?
    decreases fuel, 0, x
  {
    match x
    case Coded(e) => RenderFinishes(e, fuel - 1, fmt, all, rank);
    case Join(errs) =>
      forall i, f | 0 <= i < |errs| && f in Leaves(errs[i]) ensures f in Leaves(x) {}
      LinesFinish(errs, fuel, fmt, all, rank);
    case _ =>
  }

  lemma {:induction false} LinesFinish(errs: seq<Err>, fuel: nat, fmt: Format, all: set<Error>, rank: map<Error, nat>)
    requires Closed(all) && WellRanked(all, rank)
    requires forall i | 0 <= i < |errs| :: Leaves(errs[i]) <= all
    requires forall i, f | 0 <= i < |errs| && f in Leaves(errs[i]) :: rank[f] < fuel
    ensures Lines(errs, fuel, fmt, all).Some?
    decreases fuel, 0, errs
  {
    if errs != [] {
      TextFinishes(errs[0], fuel, fmt, all, rank);
      LinesFinish(errs[1..], fuel, fmt, all, rank);
    }
  }

  /** Rendering terminates when a rank exists: in spite of cycles through an error's own
      code, the rank bounds how deep calls of Error() nest. */
  lemma {:induction false} RenderFinishes(e: Error, fuel: nat, fmt: Format, all: set<Error>, rank: map<Error, nat>)
    requires Closed(all) && WellRanked(all, rank) && e in all && rank[e] <= fuel
    ensures Render(e, fuel, fmt, all).Some?
    decreases fuel, 1
  {
    if !HasCode(e.err, e.code) {
      TextFinishes(e.err, fuel, fmt, all, rank);
    }
  }

  ghost predicate Terminates(e: Error, fmt: Format, all: set<Error>)
    requires e in all
    reads all
  {
    exists fuel: nat :: Render(e, fuel, fmt, all).Some?
  }

  ghost function Depth(e: Error, fmt: Format, all: set<Error>, bound: nat): (d: nat)
    requires e in all && Render(e, bound, fmt, all).Some?
    reads all
    ensures d <= bound && Render(e, d, fmt, all).Some?
    ensures forall n: nat | n < d :: Render(e, n, fmt, all).None?
  {
    if n: nat :| n < bound && Render(e, n, fmt, all).Some? then Depth(e, fmt, all, n) else bound
  }

  lemma {:induction false} LeafTerminates(x: Err, f: Error, fuel: nat, fmt: Format, all: set<Error>)
    requires f in Leaves(x) && f in all && Text(x, fuel, fmt, all).Some?
    ensures fuel > 0 && Render(f, fuel - 1, fmt, all).Some?
    decreases x
  {
    match x
    case Coded(_) =>
    case Join(errs) =>
      var i :| 0 <= i < |errs| && f in Leaves(errs[i]);
      ElementText(errs, i, fuel, fmt, all);
      LeafTerminates(errs[i], f, fuel, fmt, all);
  }

  lemma {:induction false} ElementText(errs: seq<Err>, i: nat, fuel: nat, fmt: Format, all: set<Error>)
    requires i < |errs| && Lines(errs, fuel, fmt, all).Some?
    ensures Text(errs[i], fuel, fmt, all).Some?
  {
    if i > 0 { ElementText(errs[1..], i - 1, fuel, fmt, all); }
  }

  /** The converse: if rendering terminates everywhere, the nesting depth is such a rank. */
  lemma TerminationNeedsRank(fmt: Format, all: set<Error>) returns (rank: map<Error, nat>)
    requires Closed(all) && forall e | e in all :: Terminates(e, fmt, all)
    ensures WellRanked(all, rank)
  {
    rank := map e | e in all :: (var n: nat :| Render(e, n, fmt, all).Some?; Depth(e, fmt, all, n));
    forall e, f | e in all && f in rank && !HasCode(e.err, e.code) && f in Leaves(e.err)
      ensures rank[f] < rank[e]
    {
      assert Render(e, rank[e], fmt, all).Some?;
      LeafTerminates(e.err, f, rank[e], fmt, all);
    }
  }

  ghost function NonNil(xs: seq<Err>): seq<Err> {
    if xs == [] then []
    else NonNil(xs[..|xs| - 1]) + (if xs[|xs| - 1] == Nil then [] else [xs[|xs| - 1]])
  }

  lemma {:induction false} LinesAppend(xs: seq<Err>, x: Err, fuel: nat, fmt: Format, all: set<Error>)
    requires xs != []
    ensures Lines(xs + [x], fuel, fmt, all) ==
            match (Lines(xs, fuel, fmt, all), Text(x, fuel, fmt, all))
            case (Some(before), Some(last)) => Some(before + "\n" + last)
            case _ => None
  {
    assert (xs + [x])[1..] == xs[1..] + [x];
    if |xs| > 1 {
      LinesAppend(xs[1..], x, fuel, fmt, all);
      if Text(xs[0], fuel, fmt, all).Some? && Lines(xs[1..], fuel, fmt, all).Some? && Text(x, fuel, fmt, all).Some? {
        var a, b, c := Text(xs[0], fuel, fmt, all).value, Lines(xs[1..], fuel, fmt, all).value,
            Text(x, fuel, fmt, all).value;
        assert a + "\n" + (b + "\n" + c) == (a + "\n" + b) + "\n" + c;
      }
    } else {
      assert (xs + [x])[1..] == [x];
    }
  }

  /** However the joins nest, the wrapped errors read as one flat list in Wrap order. */
  lemma {:induction false} WrapAllFlat(xs: seq<Err>, fuel: nat, fmt: Format, all: set<Error>)
    ensures WrapAll(xs) == Nil <==> NonNil(xs) == []
    ensures NonNil(xs) != [] ==>
            WrapAll(xs).Join?
            && Text(WrapAll(xs), fuel, fmt, all) == Lines(NonNil(xs), fuel, fmt, all)
  {
    if xs != [] {
      var front, last := xs[..|xs| - 1], xs[|xs| - 1];
      WrapAllFlat(front, fuel, fmt, all);
      var j := WrapAll(front);
      if j != Nil && last != Nil {
        LinesAppend(NonNil(front), last, fuel, fmt, all);
        LinesAppend([j], last, fuel, fmt, all);
        assert [j] + [last] == [j, last];
      } else if last != Nil {
        assert NonNil(xs) == [last];
      } else {
        assert NonNil(xs) == NonNil(front);
      }
    }
  }

  /** What Error() returns for an error that does not contain its own code. */
  lemma RenderedText(e: Error, fuel: nat, fmt: Format, all: set<Error>, rank: map<Error, nat>)
    requires Closed(all) && WellRanked(all, rank) && e in all && rank[e] <= fuel
    requires e.Valid() && !HasCode(e.err, e.code)
    ensures NonNil(e.history) == [] ==> Render(e, fuel, fmt, all) == Some(fmt(e.message, e.params))
    ensures NonNil(e.history) != [] ==>
              && Lines(NonNil(e.history), fuel, fmt, all).Some?
              && Render(e, fuel, fmt, all) ==
                 Some(fmt(e.message, e.params) + ": " + Lines(NonNil(e.history), fuel, fmt, all).value)
  {
    RenderFinishes(e, fuel, fmt, all, rank);
    WrapAllFlat(e.history, fuel, fmt, all);
  }

  /** An error that contains its own code renders as its message, without parameters. */
  lemma OwnCodeIsRaw(e: Error, fuel: nat, fmt: Format, all: set<Error>)
    requires e in all && HasCode(e.err, e.code)
    ensures Render(e, fuel, fmt, all) == Some(e.message)
  {
  }

  /** What one wrapped error adds to the text: a plain or chained error its text, another error of the
      program what its own Error() returns. It comes after ": " if it is the first, and in a line of its
      own otherwise; a nil changes nothing. */
  lemma WrapAdds(e: Error, xs: seq<Err>, x: Err, text: string, fuel: nat, fmt: Format, all: set<Error>,
      rank: map<Error, nat>)
    requires Closed(all) && WellRanked(all, rank) && e in all && rank[e] <= fuel
    requires e.Valid() && !HasCode(e.err, e.code) && e.history == xs + [x]
    requires match x
             case Plain(t) => text == t
             case Chain(t, _) => text == t
             case Coded(f) => fuel > 0 && f in all && Render(f, fuel - 1, fmt, all) == Some(text)
             case _ => false
    ensures NonNil(xs) == [] ==> Render(e, fuel, fmt, all) == Some(fmt(e.message, e.params) + ": " + text)
    ensures NonNil(xs) != [] ==>
              && Lines(NonNil(xs), fuel, fmt, all).Some?
              && Render(e, fuel, fmt, all) ==
                 Some(fmt(e.message, e.params) + ": " + (Lines(NonNil(xs), fuel, fmt, all).value + "\n" + text))
  {
    RenderedText(e, fuel, fmt, all, rank);
    assert e.history[..|e.history| - 1] == xs;
    assert NonNil(e.history) == NonNil(xs) + [x];
    if NonNil(xs) == [] {
      assert NonNil(e.history) == [x];
    } else {
      LinesAppend(NonNil(xs), x, fuel, fmt, all);
    }
  }

  /** Two errors of different codes that wrap each other: Error() never returns. */
  lemma {:induction false} MutualWrapDiverges(a: Error, b: Error, fuel: nat, fmt: Format)
    requires a.code != b.code && a.err == Join([Coded(b)]) && b.err == Join([Coded(a)])
    ensures Render(a, fuel, fmt, {a, b}).None?
  {
    var joinB, joinA := a.err, b.err;
    assert joinB.errs[0] == Coded(b) && joinA.errs[0] == Coded(a);
    assert !HasCode(a.err, a.code);
    if fuel > 0 {
      MutualWrapDiverges(b, a, fuel - 1, fmt);
      assert {b, a} == {a, b};
    }
    assert Text(joinB, fuel, fmt, {a, b}) == Lines(joinB.errs, fuel, fmt, {a, b});
    assert Lines(joinB.errs, fuel, fmt, {a, b}) == Text(Coded(b), fuel, fmt, {a, b});
  }
}
