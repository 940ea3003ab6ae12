/** The Rigol DG4102 pulser driver: the pulse-shape parser that turns tokens
    such as "100-", "20+" and "10" into cumulative sample indices, the in-place
    fill of the two 16384-point 0/1 waveforms, the frequency and output
    setters, the period, and the trace-data command text. */
module Rigol {
  import opened PyBase

  /** Points per waveform period. */
  const WaveformPoints: int := 16384
  /** Largest frequency the setter accepts, in Hz. */
  const MaxFrequency: int := 10000
  /** Shortest pulse or delay the parser lets through, in microseconds. */
  const MinInterval: real := 5.0

  /** The messages of the parser's ValueErrors; the source's "shorter than
      minimal step" message also prints the step length, which is not modelled. */
  const InvalidLength := "Invalid value of pulse length in "
  const ShorterThanStep := "Pulse length is shorter than minimal step"
  const ShorterThanMinimum := "Pulse or delay length must be longer than 5 us"
  const LongerThanPeriod := "Total pulse length must shorter than pulse period"

  /** A token's kind: a negative pulse on channel 1 (trailing '-'), a positive
      pulse on channel 2 (trailing '+'), or a delay. */
  datatype Polarity = Delay | Negative | Positive

  /** The token text of a kind and a length text. */
  function RenderToken(p: Polarity, text: string): string
  {
    match p
    case Negative => text + "-"
    case Positive => text + "+"
    case Delay => text
  }

  /** s[-1] picks the kind; the rest of the token is the length text. */
  function SplitToken(s: string): (r: Result<(Polarity, string)>)
    ensures r.Err? <==> |s| == 0
    ensures r.Err? ==> r.error == IndexError
    ensures r.Ok? ==> RenderToken(r.value.0, r.value.1) == s
    ensures r.Ok? && r.value.0 == Delay ==> s[|s| - 1] != '-' && s[|s| - 1] != '+'
  {
    if |s| == 0 then Err(IndexError)
    else if s[|s| - 1] == '-' then Ok((Negative, s[..|s| - 1]))
    else if s[|s| - 1] == '+' then Ok((Positive, s[..|s| - 1]))
    else Ok((Delay, s))
  }

  /** Microseconds per waveform point: 1e6 / (frequency * 16384). */
  function SampleStep(frequency: int): (r: Result<real>)
    ensures r.Err? <==> frequency == 0
    ensures r.Err? ==> r.error == ZeroDivisionError
    ensures r.Ok? ==> r.value * (frequency * WaveformPoints) as real == 1000000.0
    ensures r.Ok? ==> (r.value > 0.0 <==> frequency > 0)
  {
    if frequency == 0 then Err(ZeroDivisionError)
    else Ok(1000000.0 / (frequency * WaveformPoints) as real)
  }

  /** `count` points of `dt` microseconds last at least 5 us, and at least one point. */
  predicate Spans(count: int, dt: real)
  {
    count as real * dt >= MinInterval && (dt > 0.0 ==> count >= 1)
  }

  /** The point count of a length of `value` microseconds: value/dt rounded
      half to even, or rounded up when the rounded count falls under 5 us. */
  function PointCount(value: real, dt: real): (c: int)
    requires dt != 0.0
    ensures value / dt - 0.5 <= c as real < value / dt + 1.0
    ensures RoundHalfEven(value / dt) as real * dt >= MinInterval ==> c == RoundHalfEven(value / dt)
    ensures RoundHalfEven(value / dt) as real * dt < MinInterval ==> c == Ceil(value / dt)
  {
    var rounded := RoundHalfEven(value / dt);
    if rounded as real * dt < MinInterval then Ceil(value / dt) else rounded
  }

  /** The number of points one token spans: a length under one point is
      refused; otherwise PointCount, which must still span 5 us. */
  function StepCount(value: real, dt: real): (r: Result<int>)
    ensures value < dt ==> r == Err(ValueError(ShorterThanStep))
    ensures r.Err? ==> r.error.ValueError? || (r.error == ZeroDivisionError && dt == 0.0)
    ensures value >= dt && dt != 0.0 ==> (r.Ok? <==> PointCount(value, dt) as real * dt >= MinInterval)
    ensures value >= dt && dt != 0.0 && r.Err? ==> r.error == ValueError(ShorterThanMinimum)
    ensures r.Ok? ==> dt != 0.0 && r.value == PointCount(value, dt)
    ensures r.Ok? ==> Spans(r.value, dt)
  {
    if value < dt then Err(ValueError(ShorterThanStep))
    else if dt == 0.0 then Err(ZeroDivisionError)
    else
      var count := PointCount(value, dt);
      if count as real * dt < MinInterval then Err(ValueError(ShorterThanMinimum))
      else Ok(count)
  }

  /** At a positive point duration a length of at least one point is accepted
      exactly when value/dt rounded up spans 5 us: rounding half to even never
      gives more points than rounding up. */
  lemma {:induction false} StepCountAccepts(value: real, dt: real)
    requires dt > 0.0 && value >= dt
    ensures StepCount(value, dt).Ok? <==> Ceil(value / dt) as real * dt >= MinInterval
  {
    var x := value / dt;
    assert RoundHalfEven(x) <= Ceil(x);
    assert RoundHalfEven(x) as real * dt <= Ceil(x) as real * dt;
  }

  /** One token's outcome: its kind and point count, or the exception it raises. */
  type Step = Result<(Polarity, int)>

  /** The kind and point count of one token, with its exceptions in the order the source raises them. */
  function TokenStep(s: string, dt: real): (r: Step)
    ensures |s| == 0 ==> r == Err(IndexError)
    ensures |s| > 0 && ParseFloat(SplitToken(s).value.1).None? ==> r == Err(ValueError(InvalidLength + s))
    ensures |s| > 0 && ParseFloat(SplitToken(s).value.1).Some? ==>
              var count := StepCount(ParseFloat(SplitToken(s).value.1).value, dt);
              && (r.Ok? <==> count.Ok?)
              && (r.Ok? ==> r.value == (SplitToken(s).value.0, count.value))
              && (r.Err? ==> r.error == count.error)
    ensures r.Ok? ==> SplitToken(s).Ok? && r.value.0 == SplitToken(s).value.0
    ensures r.Ok? ==> Spans(r.value.1, dt)
    ensures r.Err? && dt != 0.0 ==> r.error != ZeroDivisionError
  {
    match SplitToken(s)
    case Err(e) => Err(e)
    case Ok((p, text)) =>
      match ParseFloat(text)
      case None => Err(ValueError(InvalidLength + s))
      case Some(value) =>
        match StepCount(value, dt)
        case Err(e) => Err(e)
        case Ok(n) => Ok((p, n))
  }

  /** The body of the token loop at a given point duration. */
  function TokenParser(dt: real): string -> Step
  {
    s => TokenStep(s, dt)
  }

  /** The time_step and polarity lists: cumulative point indices starting at 0,
      and the kind of the interval that ends at each index. */
  datatype Plan = Plan(timeStep: seq<int>, polarity: seq<Polarity>)

  predicate Increasing(ts: seq<int>)
  {
    forall i, j :: 0 <= i < j < |ts| ==> ts[i] < ts[j]
  }

  /** The shape of every accepted plan at a positive frequency. */
  predicate WellFormed(plan: Plan)
  {
    && |plan.timeStep| == |plan.polarity| >= 1
    && plan.timeStep[0] == 0
    && Increasing(plan.timeStep)
    && plan.timeStep[|plan.timeStep| - 1] < WaveformPoints
  }

  /** The outcome of every token of `shape` under `parse`. */
  function Steps(shape: seq<string>, parse: string -> Step): (r: seq<Step>)
    ensures |r| == |shape|
  {
    if |shape| == 0 then [] else Steps(shape[..|shape| - 1], parse) + [parse(shape[|shape| - 1])]
  }

  /** Outcome k is token k's. */
  lemma {:induction false} StepsAt(shape: seq<string>, parse: string -> Step, k: int)
    requires 0 <= k < |shape|
    ensures Steps(shape, parse)[k] == parse(shape[k])
    decreases |shape|
  {
    if k < |shape| - 1 {
      StepsAt(shape[..|shape| - 1], parse, k);
    }
  }

  /** The outcomes of a shape are those of a prefix followed by those of the rest. */
  lemma {:induction false} StepsSplit(shape: seq<string>, n: int, parse: string -> Step)
    requires 0 <= n <= |shape|
    ensures Steps(shape, parse) == Steps(shape[..n], parse) + Steps(shape[n..], parse)
    decreases |shape|
  {
    if n < |shape| {
      var m := |shape|;
      StepsSplit(shape[..m - 1], n, parse);
      assert shape[..m - 1][..n] == shape[..n];
      assert shape[n..][..m - 1 - n] == shape[..m - 1][n..];
      assert shape[n..][m - 1 - n] == shape[m - 1];
    } else {
      assert shape[..n] == shape;
    }
  }

  /** Every accepted token spans at least 5 us, and at least one point when dt is positive. */
  lemma {:induction false} StepsSpan(shape: seq<string>, dt: real)
    ensures forall k :: 0 <= k < |shape| && Steps(shape, TokenParser(dt))[k].Ok? ==>
              Spans(Steps(shape, TokenParser(dt))[k].value.1, dt)
  {
    forall k | 0 <= k < |shape| && Steps(shape, TokenParser(dt))[k].Ok?
      ensures Spans(Steps(shape, TokenParser(dt))[k].value.1, dt)
    {
      StepsAt(shape, TokenParser(dt), k);
    }
  }

  /** No token divides by zero. */
  lemma {:induction false} StepsNoZeroDivision(shape: seq<string>, dt: real)
    requires dt != 0.0
    ensures forall k :: 0 <= k < |shape| ==> Steps(shape, TokenParser(dt))[k] != Err(ZeroDivisionError)
  {
    forall k | 0 <= k < |shape|
      ensures Steps(shape, TokenParser(dt))[k] != Err(ZeroDivisionError)
    {
      StepsAt(shape, TokenParser(dt), k);
    }
  }

  /** The time_step and polarity lists after a run of token outcomes, before
      the total-length check; the first failing token decides the exception. */
  function Chain(steps: seq<Step>): (r: Result<Plan>)
    ensures r.Ok? ==> |r.value.timeStep| == |steps| + 1 == |r.value.polarity|
    ensures r.Ok? ==> r.value.timeStep[0] == 0
    decreases |steps|
  {
    if |steps| == 0 then Ok(Plan([0], [Delay]))
    else
      match Chain(steps[..|steps| - 1])
      case Err(e) => Err(e)
      case Ok(plan) =>
        match steps[|steps| - 1]
        case Err(e) => Err(e)
        case Ok((p, n)) =>
          var ts := plan.timeStep;
          Ok(Plan(ts + [ts[|ts| - 1] + n], plan.polarity + [p]))
  }

  /** Interval k of `plan` is token k's point count, of token k's kind. */
  predicate Follows(steps: seq<Step>, plan: Plan)
  {
    && |plan.timeStep| == |steps| + 1 == |plan.polarity|
    && forall k :: 0 <= k < |steps| ==>
         && steps[k].Ok?
         && plan.timeStep[k + 1] - plan.timeStep[k] == steps[k].value.1
         && plan.polarity[k + 1] == steps[k].value.0
  }

  /** The lists are built exactly when every token succeeds, and then follow the tokens. */
  lemma {:induction false} ChainFollows(steps: seq<Step>)
    ensures Chain(steps).Ok? <==> forall k :: 0 <= k < |steps| ==> steps[k].Ok?
    ensures Chain(steps).Ok? ==> Follows(steps, Chain(steps).value)
    decreases |steps|
  {
    if |steps| > 0 {
      var n := |steps|;
      var init := steps[..n - 1];
      ChainFollows(init);
      if Chain(steps).Ok? {
        var plan, plan' := Chain(init).value, Chain(steps).value;
        forall k | 0 <= k < n
          ensures && steps[k].Ok?
                  && plan'.timeStep[k + 1] - plan'.timeStep[k] == steps[k].value.1
                  && plan'.polarity[k + 1] == steps[k].value.0
        {
          if k < n - 1 {
            assert steps[k] == init[k];
          }
        }
      } else if Chain(init).Err? {
        var k :| 0 <= k < n - 1 && !init[k].Ok?;
        assert steps[k] == init[k];
      }
    }
  }

  /** A failing chain fails with the exception of one of its tokens. */
  lemma {:induction false} ChainError(steps: seq<Step>)
    requires Chain(steps).Err?
    ensures exists k :: 0 <= k < |steps| && steps[k] == Err(Chain(steps).error)
    decreases |steps|
  {
    var n := |steps|;
    var init := steps[..n - 1];
    if Chain(init).Err? {
      ChainError(init);
      var k :| 0 <= k < n - 1 && init[k] == Err(Chain(init).error);
      assert steps[k] == init[k];
    }
  }

  /** One more token extends the lists, or fails the run with its exception. */
  lemma {:induction false} ChainExtend(steps: seq<Step>, step: Step, plan: Plan)
    requires Chain(steps) == Ok(plan)
    ensures step.Err? ==> Chain(steps + [step]) == Err(step.error)
    ensures step.Ok? ==>
              Chain(steps + [step]) == Ok(Plan(plan.timeStep + [plan.timeStep[|steps|] + step.value.1],
                                               plan.polarity + [step.value.0]))
  {
    assert (steps + [step])[..|steps|] == steps;
  }

  /** A failed run stays failed, with the same exception, whatever tokens follow. */
  lemma {:induction false} ChainErrorPersists(steps: seq<Step>, more: seq<Step>)
    requires Chain(steps).Err?
    ensures Chain(steps + more) == Chain(steps)
    decreases |more|
  {
    if |more| > 0 {
      var init := more[..|more| - 1];
      ChainErrorPersists(steps, init);
      assert (steps + more)[..|steps + more| - 1] == steps + init;
    } else {
      assert steps + more == steps;
    }
  }

  /** The points a run of token outcomes spans in total (a failed token spans none). */
  function Total(steps: seq<Step>): int
    decreases |steps|
  {
    if |steps| == 0 then 0
    else Total(steps[..|steps| - 1]) + (if steps[|steps| - 1].Ok? then steps[|steps| - 1].value.1 else 0)
  }

  /** The last index of the lists is the total point count of the tokens. */
  lemma {:induction false} ChainTotal(steps: seq<Step>)
    requires Chain(steps).Ok?
    ensures Chain(steps).value.timeStep[|steps|] == Total(steps)
    decreases |steps|
  {
    if |steps| > 0 {
      ChainTotal(steps[..|steps| - 1]);
    }
  }

  /** The first failing token decides the exception of the run. */
  lemma {:induction false} ChainFirstError(steps: seq<Step>, k: int)
    requires 0 <= k < |steps| && steps[k].Err?
    requires forall j :: 0 <= j < k ==> steps[j].Ok?
    ensures Chain(steps) == Err(steps[k].error)
  {
    var head := steps[..k];
    assert forall j :: 0 <= j < k ==> head[j] == steps[j];
    ChainFollows(head);
    ChainExtend(head, steps[k], Chain(head).value);
    assert head + [steps[k]] == steps[..k + 1];
    assert Chain(steps[..k + 1]) == Err(steps[k].error);
    ChainErrorPersists(steps[..k + 1], steps[k + 1..]);
    assert steps[..k + 1] + steps[k + 1..] == steps;
  }

  lemma {:induction false} ChainFirstErrors(steps: seq<Step>)
    ensures forall k :: 0 <= k < |steps| && steps[k].Err? && (forall j :: 0 <= j < k ==> steps[j].Ok?) ==>
              Chain(steps) == Err(steps[k].error)
  {
    forall k | 0 <= k < |steps| && steps[k].Err? && (forall j :: 0 <= j < k ==> steps[j].Ok?)
      ensures Chain(steps) == Err(steps[k].error)
    {
      ChainFirstError(steps, k);
    }
  }

  /** Counts of at least one point make the indices strictly increasing. */
  lemma {:induction false} FollowsIncreasing(steps: seq<Step>, plan: Plan)
    requires Follows(steps, plan)
    requires forall k :: 0 <= k < |steps| ==> steps[k].Ok? && steps[k].value.1 >= 1
    ensures Increasing(plan.timeStep)
  {
    forall i, j | 0 <= i < j < |plan.timeStep|
      ensures plan.timeStep[i] < plan.timeStep[j]
    {
      FollowsIncreasingFrom(steps, plan, i, j);
    }
  }

  lemma {:induction false} FollowsIncreasingFrom(steps: seq<Step>, plan: Plan, i: int, j: int)
    requires Follows(steps, plan)
    requires forall k :: 0 <= k < |steps| ==> steps[k].Ok? && steps[k].value.1 >= 1
    requires 0 <= i < j < |plan.timeStep|
    ensures plan.timeStep[i] < plan.timeStep[j]
    decreases j - i
  {
    if i < j - 1 {
      FollowsIncreasingFrom(steps, plan, i, j - 1);
    }
  }

  /** The lists after a run of token outcomes, with the check that they fit in one period. */
  function PlanOf(steps: seq<Step>): (r: Result<Plan>)
    ensures r.Ok? ==> |r.value.timeStep| == |steps| + 1 == |r.value.polarity|
    ensures r.Ok? ==> r.value.timeStep[|steps|] < WaveformPoints && Follows(steps, r.value)
    ensures r.Ok? && (forall k :: 0 <= k < |steps| ==> steps[k].Ok? && steps[k].value.1 >= 1) ==>
              WellFormed(r.value)
    ensures r.Err? ==> r.error.ValueError? || exists k :: 0 <= k < |steps| && steps[k] == Err(r.error)
    ensures r.Ok? <==> (forall k :: 0 <= k < |steps| ==> steps[k].Ok?) && Total(steps) < WaveformPoints
    ensures (forall k :: 0 <= k < |steps| ==> steps[k].Ok?) && Total(steps) >= WaveformPoints ==>
              r == Err(ValueError(LongerThanPeriod))
    ensures forall k :: 0 <= k < |steps| && steps[k].Err? && (forall j :: 0 <= j < k ==> steps[j].Ok?) ==>
              r == Err(steps[k].error)
  {
    ChainFollows(steps);
    ChainFirstErrors(steps);
    match Chain(steps)
    case Err(e) =>
      ChainError(steps);
      Err(e)
    case Ok(plan) =>
      ChainTotal(steps);
      if plan.timeStep[|plan.timeStep| - 1] >= WaveformPoints then
        Err(ValueError(LongerThanPeriod))
      else
        ChainFollows(steps);
        if forall k :: 0 <= k < |steps| ==> steps[k].Ok? && steps[k].value.1 >= 1 then
          FollowsIncreasing(steps, plan);
          Ok(plan)
        else Ok(plan)
  }

  /** Every token of `shape` parses at point duration dt. */
  predicate TokensParse(shape: seq<string>, dt: real)
  {
    forall k :: 0 <= k < |shape| ==> TokenStep(shape[k], dt).Ok?
  }

  /** The shapes __parse_pulse_shape accepts at point duration dt: every token
      parses and together the tokens span less than one period. */
  predicate Accepted(shape: seq<string>, dt: real)
  {
    TokensParse(shape, dt) && Total(Steps(shape, TokenParser(dt))) < WaveformPoints
  }

  /** Outcome k of the token loop is TokenStep of token k. */
  lemma {:induction false} StepsAreTokens(shape: seq<string>, dt: real)
    ensures forall k :: 0 <= k < |shape| ==> Steps(shape, TokenParser(dt))[k] == TokenStep(shape[k], dt)
  {
    forall k | 0 <= k < |shape|
      ensures Steps(shape, TokenParser(dt))[k] == TokenStep(shape[k], dt)
    {
      StepsAt(shape, TokenParser(dt), k);
    }
  }

  /** __parse_pulse_shape up to the waveform fill: the plan, or the exception it raises. */
  function PlanPulseShape(shape: seq<string>, frequency: int): (r: Result<Plan>)
    ensures r == Err(ZeroDivisionError) <==> frequency == 0
    ensures r.Ok? ==> |r.value.timeStep| == |shape| + 1 == |r.value.polarity|
    ensures r.Ok? ==> r.value.timeStep[|shape|] < WaveformPoints
    ensures r.Ok? ==> Follows(Steps(shape, TokenParser(SampleStep(frequency).value)), r.value)
    ensures r.Ok? && frequency > 0 ==> WellFormed(r.value)
    ensures frequency != 0 ==> (r.Ok? <==> Accepted(shape, SampleStep(frequency).value))
  {
    match SampleStep(frequency)
    case Err(e) => Err(e)
    case Ok(dt) =>
      StepsAreTokens(shape, dt);
      StepsNoZeroDivision(shape, dt);
      if dt > 0.0 then
        StepsSpan(shape, dt);
        PlanOf(Steps(shape, TokenParser(dt)))
      else PlanOf(Steps(shape, TokenParser(dt)))
  }

  /** The exceptions of a refused shape, in the order the source raises them:
      the first token that fails decides, and a shape whose tokens all parse
      fails only by being longer than one period. */
  lemma {:induction false} PlanErrors(shape: seq<string>, frequency: int)
    requires frequency != 0
    ensures var dt := SampleStep(frequency).value;
            TokensParse(shape, dt) && !Accepted(shape, dt) ==>
              PlanPulseShape(shape, frequency) == Err(ValueError(LongerThanPeriod))
    ensures var dt := SampleStep(frequency).value;
            forall k :: 0 <= k < |shape| && TokenStep(shape[k], dt).Err?
                        && (forall j :: 0 <= j < k ==> TokenStep(shape[j], dt).Ok?) ==>
              PlanPulseShape(shape, frequency) == Err(TokenStep(shape[k], dt).error)
  {
    var dt := SampleStep(frequency).value;
    StepsAreTokens(shape, dt);
    assert PlanPulseShape(shape, frequency) == PlanOf(Steps(shape, TokenParser(dt)));
  }

  /** Interval k of an accepted plan lasts at least 5 us and has token k's kind. */
  lemma {:induction false} PlanInterval(shape: seq<string>, frequency: int, k: int)
    requires PlanPulseShape(shape, frequency).Ok? && 0 <= k < |shape|
    ensures var plan := PlanPulseShape(shape, frequency).value;
            && Spans(plan.timeStep[k + 1] - plan.timeStep[k], SampleStep(frequency).value)
            && SplitToken(shape[k]).Ok?
            && plan.polarity[k + 1] == SplitToken(shape[k]).value.0
  {
    FollowsTokens(shape, SampleStep(frequency).value, PlanPulseShape(shape, frequency).value, k);
  }

  /** Interval k of lists that follow the tokens is token k's count, of token k's kind. */
  lemma {:induction false} FollowsTokens(shape: seq<string>, dt: real, plan: Plan, k: int)
    requires Follows(Steps(shape, TokenParser(dt)), plan) && 0 <= k < |shape|
    ensures && Spans(plan.timeStep[k + 1] - plan.timeStep[k], dt)
            && SplitToken(shape[k]).Ok?
            && plan.polarity[k + 1] == SplitToken(shape[k]).value.0
  {
    var step := Steps(shape, TokenParser(dt))[k];
    assert plan.timeStep[k + 1] - plan.timeStep[k] == step.value.1 && plan.polarity[k + 1] == step.value.0;
    StepsAt(shape, TokenParser(dt), k);
    TokenFacts(shape[k], dt);
  }

  lemma {:induction false} TokenFacts(s: string, dt: real)
    ensures TokenParser(dt)(s).Ok? ==>
              && Spans(TokenParser(dt)(s).value.1, dt)
              && SplitToken(s).Ok?
              && TokenParser(dt)(s).value.0 == SplitToken(s).value.0
  {
  }

  /** One pass of the token loop: the next token extends the lists or ends the parse with its exception. */
  lemma {:induction false} CollectStep(shape: seq<string>, i: int, parse: string -> Step, plan: Plan)
    requires 0 <= i < |shape| && Chain(Steps(shape[..i], parse)) == Ok(plan)
    ensures parse(shape[i]).Err? ==> Chain(Steps(shape, parse)) == Err(parse(shape[i]).error)
    ensures parse(shape[i]).Ok? ==>
              Chain(Steps(shape[..i + 1], parse))
              == Ok(Plan(plan.timeStep + [plan.timeStep[i] + parse(shape[i]).value.1],
                         plan.polarity + [parse(shape[i]).value.0]))
  {
    var token := parse(shape[i]);
    assert shape[..i + 1][..i] == shape[..i];
    assert Steps(shape[..i + 1], parse) == Steps(shape[..i], parse) + [token];
    ChainExtend(Steps(shape[..i], parse), token, plan);
    if token.Err? {
      StepsSplit(shape, i + 1, parse);
      ChainErrorPersists(Steps(shape[..i + 1], parse), Steps(shape[i + 1..], parse));
    }
  }

  /** The token loop of __parse_pulse_shape, extending the lists one token at a time. */
  method CollectTokens(shape: seq<string>, parse: string -> Step) returns (r: Result<Plan>)
    ensures r == Chain(Steps(shape, parse))
  {
    var timeStep := [0];
    var polarity := [Delay];
    for i := 0 to |shape|
      invariant Chain(Steps(shape[..i], parse)) == Ok(Plan(timeStep, polarity))
    {
      var token := parse(shape[i]);
      CollectStep(shape, i, parse, Plan(timeStep, polarity));
      if token.Err? {
        return Err(token.error);
      }
      timeStep := timeStep + [timeStep[|timeStep| - 1] + token.value.1];
      polarity := polarity + [token.value.0];
    }
    assert shape[..|shape|] == shape;
    r := Ok(Plan(timeStep, polarity));
  }

  /** __parse_pulse_shape up to the waveform fill, as the source computes it. */
  method CollectSteps(shape: seq<string>, frequency: int) returns (r: Result<Plan>)
    ensures r == PlanPulseShape(shape, frequency)
  {
    if frequency == 0 {
      return Err(ZeroDivisionError);
    }
    var dt := 1000000.0 / (frequency * WaveformPoints) as real;
    r := CollectTokens(shape, TokenParser(dt));
    assert PlanPulseShape(shape, frequency) == PlanOf(Steps(shape, TokenParser(dt)));
    if r.Ok? && r.value.timeStep[|r.value.timeStep| - 1] >= WaveformPoints {
      r := Err(ValueError(LongerThanPeriod));
    }
  }

  // ---------------------------------------------------------------------------
  // Waveform levels

  /** The value the fill leaves at point k of the channel of kind `want`:
      1 when some interval of that kind covers k. */
  function Level(ts: seq<int>, pol: seq<Polarity>, want: Polarity, k: int): (v: int)
    requires |ts| == |pol|
    ensures v == 0 || v == 1
    decreases |ts|
  {
    if |ts| < 2 then 0
    else if pol[|ts| - 1] == want && ts[|ts| - 2] <= k < ts[|ts| - 1] then 1
    else Level(ts[..|ts| - 1], pol[..|pol| - 1], want, k)
  }

  /** Level is 1 exactly on the intervals of the wanted kind. */
  lemma {:induction false} LevelCovers(ts: seq<int>, pol: seq<Polarity>, want: Polarity, k: int)
    requires |ts| == |pol|
    ensures Level(ts, pol, want, k) == 1 <==>
            exists i :: 1 <= i < |ts| && pol[i] == want && ts[i - 1] <= k < ts[i]
    decreases |ts|
  {
    if |ts| >= 2 {
      var n := |ts|;
      var ts', pol' := ts[..n - 1], pol[..n - 1];
      LevelCovers(ts', pol', want, k);
      if Level(ts, pol, want, k) == 1 {
        if !(pol[n - 1] == want && ts[n - 2] <= k < ts[n - 1]) {
          var i :| 1 <= i < |ts'| && pol'[i] == want && ts'[i - 1] <= k < ts'[i];
          assert pol[i] == want && ts[i - 1] <= k < ts[i];
        }
      } else {
        forall i | 1 <= i < |ts| && pol[i] == want
          ensures !(ts[i - 1] <= k < ts[i])
        {
          if i < n - 1 {
            assert pol'[i] == pol[i] && ts'[i - 1] == ts[i - 1] && ts'[i] == ts[i];
          }
        }
      }
    }
  }

  /** No interval reaches past the last index. */
  lemma {:induction false} LevelBeyondLast(ts: seq<int>, pol: seq<Polarity>, want: Polarity, k: int)
    requires |ts| == |pol| >= 1 && Increasing(ts) && k >= ts[|ts| - 1]
    ensures Level(ts, pol, want, k) == 0
    decreases |ts|
  {
    if |ts| >= 2 {
      LevelBeyondLast(ts[..|ts| - 1], pol[..|pol| - 1], want, k);
    }
  }

  /** Intervals of an increasing plan do not overlap, so the two channels are never both 1. */
  lemma {:induction false} LevelsDisjoint(ts: seq<int>, pol: seq<Polarity>, k: int)
    requires |ts| == |pol| >= 1 && Increasing(ts)
    ensures Level(ts, pol, Negative, k) == 0 || Level(ts, pol, Positive, k) == 0
    decreases |ts|
  {
    var n := |ts|;
    if n >= 2 {
      var ts', pol' := ts[..n - 1], pol[..n - 1];
      if ts[n - 2] <= k < ts[n - 1] {
        LevelBeyondLast(ts', pol', Negative, k);
        LevelBeyondLast(ts', pol', Positive, k);
      } else {
        LevelsDisjoint(ts', pol', k);
      }
    }
  }

  // ---------------------------------------------------------------------------
  // Period and trace-data command

  /** get_period: the period in microseconds. */
  function Period(frequency: int): (r: Result<real>)
    ensures r.Err? <==> frequency == 0
    ensures r.Err? ==> r.error == ZeroDivisionError
    ensures r.Ok? ==> r.value * frequency as real == 1000000.0
  {
    if frequency == 0 then Err(ZeroDivisionError) else Ok(1000000.0 / frequency as real)
  }

  /** Every index of a well-formed plan, at dt microseconds per point, lies inside the period. */
  lemma {:induction false} PlanWithinPeriod(plan: Plan, frequency: int)
    requires frequency >= 1 && WellFormed(plan)
    ensures forall k :: 0 <= k < |plan.timeStep| ==>
              plan.timeStep[k] as real * SampleStep(frequency).value < Period(frequency).value
  {
    var ts := plan.timeStep;
    forall k | 0 <= k < |ts|
      ensures ts[k] as real * SampleStep(frequency).value < Period(frequency).value
    {
      assert ts[k] <= ts[|ts| - 1];
      PointWithinPeriod(ts[k], frequency);
    }
  }

  /** Point `last` of the waveform, at `last` times dt, lies inside the period. */
  lemma PointWithinPeriod(last: int, frequency: int)
    requires frequency >= 1 && last < WaveformPoints
    ensures last as real * SampleStep(frequency).value < Period(frequency).value
  {
    var dt := SampleStep(frequency).value;
    var f := frequency as real;
    var n := WaveformPoints as real;
    assert dt * n * f == Period(frequency).value * f;
    assert dt * n == Period(frequency).value;
    assert (n - last as real) * dt > 0.0;
  }

  /** ", ".join(map(str, values)). */
  function JoinValues(values: seq<int>): (s: string)
    ensures |values| > 0 ==> |s| > 0
  {
    if |values| == 0 then ""
    else if |values| == 1 then IntToDecimal(values[0])
    else IntToDecimal(values[0]) + ", " + JoinValues(values[1..])
  }

  predicate IsBits(values: seq<int>)
  {
    forall k :: 0 <= k < |values| ==> values[k] == 0 || values[k] == 1
  }

  /** Reads a ", "-separated list of 0/1 digits back; any other text is refused. */
  function ParseBits(s: string): Option<seq<int>>
  {
    if |s| == 0 then Some([])
    else if s[0] != '0' && s[0] != '1' then None
    else
      var bit := if s[0] == '1' then 1 else 0;
      if |s| == 1 then Some([bit])
      else if |s| < 4 || s[1] != ',' || s[2] != ' ' then None
      else
        match ParseBits(s[3..])
        case None => None
        case Some(rest) => if |rest| == 0 then None else Some([bit] + rest)
  }

  /** The joined text of 0/1 values reads back as those values. */
  lemma {:induction false} JoinRoundTrip(values: seq<int>)
    ensures IsBits(values) ==> ParseBits(JoinValues(values)) == Some(values)
  {
    if |values| > 0 && IsBits(values) {
      var head := IntToDecimal(values[0]);
      assert head == [if values[0] == 1 then '1' else '0'];
      if |values| > 1 {
        var rest := JoinValues(values[1..]);
        assert IsBits(values[1..]) by {
          forall k | 0 <= k < |values[1..]| ensures values[1..][k] == 0 || values[1..][k] == 1 {
            assert values[1..][k] == values[k + 1];
          }
        }
        JoinRoundTrip(values[1..]);
        var s := head + ", " + rest;
        assert JoinValues(values) == s && |rest| > 0;
        assert s[0] == head[0] && s[1] == ',' && s[2] == ' ' && |s| >= 4;
        assert s[3..] == rest;
        assert ParseBits(s) == Some([values[0]] + values[1..]);
        assert [values[0]] + values[1..] == values;
      } else {
        assert JoinValues(values) == head && |head| == 1;
        assert values == [values[0]];
      }
    }
  }

  /** Text that reads back is exactly the joined text of 0/1 values. */
  lemma {:induction false} ParseJoinRoundTrip(s: string)
    ensures ParseBits(s).Some? ==> IsBits(ParseBits(s).value) && JoinValues(ParseBits(s).value) == s
    decreases |s|
  {
    if |s| > 0 && ParseBits(s).Some? {
      var bit := if s[0] == '1' then 1 else 0;
      assert IntToDecimal(bit) == [s[0]];
      if |s| == 1 {
        assert [s[0]] == s;
      } else {
        ParseJoinRoundTrip(s[3..]);
        var rest := ParseBits(s[3..]).value;
        assert ParseBits(s).value == [bit] + rest;
        assert ([bit] + rest)[1..] == rest;
        assert s == [s[0]] + ", " + s[3..];
      }
    }
  }

  function TracePrefix(channel: int): string
  {
    ":SOURce" + IntToDecimal(channel) + ":TRACE:DATA VOLATILE,"
  }

  /** __cmd_pulse_shape: the trace-data command of channel 1 or 2, nothing for another channel. */
  function TraceDataCommand(channel: int, wave1: seq<int>, wave2: seq<int>): (r: Option<string>)
    ensures r.None? <==> channel != 1 && channel != 2
    ensures r.Some? ==> |TracePrefix(channel)| <= |r.value| && r.value[..|TracePrefix(channel)|] == TracePrefix(channel)
    ensures r.Some? && channel == 1 && IsBits(wave1) ==> ParseBits(r.value[|TracePrefix(1)|..]) == Some(wave1)
    ensures r.Some? && channel == 2 && IsBits(wave2) ==> ParseBits(r.value[|TracePrefix(2)|..]) == Some(wave2)
  {
    if channel == 1 then
      JoinRoundTrip(wave1);
      var s := TracePrefix(1) + JoinValues(wave1);
      assert s[|TracePrefix(1)|..] == JoinValues(wave1);
      Some(s)
    else if channel == 2 then
      JoinRoundTrip(wave2);
      var s := TracePrefix(2) + JoinValues(wave2);
      assert s[|TracePrefix(2)|..] == JoinValues(wave2);
      Some(s)
    else None
  }

  /** The default token "100-" is a negative pulse of 100 us. */
  lemma {:induction false} HundredMicroseconds()
    ensures SplitToken("100-") == Ok((Negative, "100"))
    ensures ParseFloat("100") == Some(100.0)
  {
    assert "100-"[..3] == "100";
    assert "100"[..2] == "10" && "10"[..1] == "1";
    assert DigitsValue("100") == Some(100);
    assert ParseInt("100") == Some(100);
    ParseFloatExtendsParseInt("100");
  }

  /** The default pulse shape ["100-"] at the default 10 Hz: one 16-point negative pulse. */
  lemma {:induction false} DefaultPlan()
    ensures PlanPulseShape(["100-"], 10) == Ok(Plan([0, 16], [Delay, Negative]))
  {
    var dt := 1000000.0 / 163840.0;
    assert SampleStep(10) == Ok(dt);
    HundredMicroseconds();
    assert RoundHalfEven(100.0 / dt) == 16;
    assert StepCount(100.0, dt) == Ok(16);
    assert TokenStep("100-", dt) == Ok((Negative, 16));
    var steps := Steps(["100-"], TokenParser(dt));
    assert ["100-"][..0] == [];
    assert steps == [Ok((Negative, 16))];
    assert steps[..0] == [];
    assert Chain(steps[..0]) == Ok(Plan([0], [Delay]));
    assert [0] + [0 + 16] == [0, 16] && [Delay] + [Negative] == [Delay, Negative];
  }

  // ---------------------------------------------------------------------------
  // The frequency setter

  const FrequencyNotInteger := "Frequency input must be an integer"
  const FrequencyTooHigh := "Frequency input must be lower than 10 kHz"
  const FrequencyNotPositive := "Frequency input must be positive"

  /** The outcome of __parse_pulse_shape: completes, or raises the plan's exception. */
  function ParseOutcome(shape: seq<string>, frequency: int): (r: Outcome)
    ensures frequency == 0 ==> r == Fail(ZeroDivisionError)
    ensures frequency != 0 ==> (r == Pass <==> Accepted(shape, SampleStep(frequency).value))
    ensures r.Fail? ==> r.error == PlanPulseShape(shape, frequency).error
  {
    match PlanPulseShape(shape, frequency)
    case Ok(_) => Pass
    case Err(e) => Fail(e)
  }

  /** The frequency setter's new frequency and outcome with the guard as the
      source writes it: only an upper bound, so 0 and negative values pass. */
  function FrequencyUpdateAsWritten(current: int, shape: seq<string>, value: PyValue): (r: (int, Outcome))
    ensures IntOf(value).None? ==> r == (current, Fail(ValueError(FrequencyNotInteger)))
    ensures IntOf(value).Some? && IntOf(value).value > MaxFrequency ==> r == (current, Fail(ValueError(FrequencyTooHigh)))
    ensures IntOf(value).Some? && IntOf(value).value <= MaxFrequency ==> r.0 == IntOf(value).value
    ensures r.0 != current ==> r.1 == ParseOutcome(shape, r.0)
    ensures r.0 == current ==> r.1 == Pass || IntOf(value).None? || IntOf(value).value > MaxFrequency
  {
    match IntOf(value)
    case None => (current, Fail(ValueError(FrequencyNotInteger)))
    case Some(f) =>
      if f > MaxFrequency then (current, Fail(ValueError(FrequencyTooHigh)))
      else if f == current then (current, Pass)
      else (f, ParseOutcome(shape, f))
  }

  /** Frequency 0 passes the guard, is stored, and the re-parse then divides by
      zero; every later pulse shape and get_period divide by zero too. */
  lemma FrequencyZeroAsWritten(current: int, shape: seq<string>)
    requires current != 0
    ensures FrequencyUpdateAsWritten(current, shape, PyInt(0)) == (0, Fail(ZeroDivisionError))
    ensures forall later :: ParseOutcome(later, 0) == Fail(ZeroDivisionError)
    ensures Period(0) == Err(ZeroDivisionError)
  {
  }

  /** A negative frequency passes the guard too, and the default shape then
      parses to indices that run backwards. */
  lemma {:induction false} NegativeFrequencyAsWritten()
    ensures FrequencyUpdateAsWritten(10, ["100-"], PyInt(-10)) == (-10, Pass)
    ensures PlanPulseShape(["100-"], -10) == Ok(Plan([0, -16], [Delay, Negative]))
  {
    NegativePlan();
    assert ParseOutcome(["100-"], -10) == Pass;
  }

  lemma {:induction false} NegativePlan()
    ensures PlanPulseShape(["100-"], -10) == Ok(Plan([0, -16], [Delay, Negative]))
  {
    var dt := 1000000.0 / -163840.0;
    assert SampleStep(-10) == Ok(dt);
    HundredMicroseconds();
    assert RoundHalfEven(100.0 / dt) == -16;
    assert StepCount(100.0, dt) == Ok(-16);
    assert TokenStep("100-", dt) == Ok((Negative, -16));
    var steps := Steps(["100-"], TokenParser(dt));
    assert ["100-"][..0] == [];
    assert steps == [Ok((Negative, -16))];
    assert steps[..0] == [];
    assert Chain(steps[..0]) == Ok(Plan([0], [Delay]));
    assert [0] + [0 + -16] == [0, -16] && [Delay] + [Negative] == [Delay, Negative];
  }

  /** The frequency setter with the guard the rest of the driver relies on:
      1 to 10000 Hz. The new value is stored before the re-parse, as in the source. */
  function FrequencyUpdate(current: int, shape: seq<string>, value: PyValue): (r: (int, Outcome))
    ensures 1 <= current <= MaxFrequency ==> 1 <= r.0 <= MaxFrequency
    ensures r.0 != current ==> IntOf(value) == Some(r.0)
    ensures IntOf(value).Some? && 1 <= IntOf(value).value <= MaxFrequency ==> r.0 == IntOf(value).value
    ensures 1 <= current ==> r.1 != Fail(ZeroDivisionError)
    ensures r.1 == Pass && r.0 != current ==> PlanPulseShape(shape, r.0).Ok? && WellFormed(PlanPulseShape(shape, r.0).value)
  {
    match IntOf(value)
    case None => (current, Fail(ValueError(FrequencyNotInteger)))
    case Some(f) =>
      if f > MaxFrequency then (current, Fail(ValueError(FrequencyTooHigh)))
      else if f < 1 then (current, Fail(ValueError(FrequencyNotPositive)))
      else if f == current then (current, Pass)
      else (f, ParseOutcome(shape, f))
  }

  /** On every value the source's guard was meant for, the corrected setter behaves as written. */
  lemma FrequencyUpdateAgrees(current: int, shape: seq<string>, value: PyValue)
    requires IntOf(value).None? || IntOf(value).value >= 1
    ensures FrequencyUpdate(current, shape, value) == FrequencyUpdateAsWritten(current, shape, value)
  {
  }

  // ---------------------------------------------------------------------------
  // The pulser

  predicate Binary(v: int) { v == 0 || v == 1 }

  /** The DG4102 driver state: two 16384-point waveforms updated in place, the
      frequency, the pulse-shape tokens, and the output and connection flags. */
  class Pulser {
    const ch1: array<int>
    const ch2: array<int>
    var frequency: int
    var pulseShape: seq<string>
    var output: bool
    var connected: bool
    var ch2Enabled: bool

    ghost predicate Valid()
      reads this, ch1, ch2
    {
      && ch1 != ch2
      && ch1.Length == WaveformPoints && ch2.Length == WaveformPoints
      && 1 <= frequency <= MaxFrequency
      && (output ==> connected)
      && forall k :: 0 <= k < WaveformPoints ==> Binary(ch1[k]) && Binary(ch2[k]) && (ch1[k] == 0 || ch2[k] == 0)
    }

    /** The waveforms hold exactly the intervals of `plan`: channel 1 its negative
        pulses, channel 2 its positive ones. */
    ghost predicate Shows(plan: Plan)
      reads ch1, ch2
      requires |plan.timeStep| == |plan.polarity|
    {
      && ch1.Length == WaveformPoints && ch2.Length == WaveformPoints
      && forall k :: 0 <= k < WaveformPoints ==>
           && ch1[k] == Level(plan.timeStep, plan.polarity, Negative, k)
           && ch2[k] == Level(plan.timeStep, plan.polarity, Positive, k)
    }

    /** Defaults: 10 Hz, channel 2 disabled, not connected, pulse shape ["100-"]. */
    constructor ()
      ensures Valid()
      ensures frequency == 10 && pulseShape == ["100-"]
      ensures !output && !connected && !ch2Enabled
      ensures Shows(Plan([0, 16], [Delay, Negative]))
    {
      ch1 := new int[WaveformPoints](_ => 0);
      ch2 := new int[WaveformPoints](_ => 0);
      frequency := 10;
      pulseShape := [];
      output, connected, ch2Enabled := false, false, false;
      new;
      SetDefaultPulseShape();
    }

    /** The pulse_shape assignment in __init__: the default shape always parses at 10 Hz. */
    method SetDefaultPulseShape()
      requires Valid() && frequency == 10
      modifies this`pulseShape, ch1, ch2
      ensures Valid() && pulseShape == ["100-"]
      ensures Shows(Plan([0, 16], [Delay, Negative]))
    {
      DefaultPlan();
      var outcome := SetPulseShape(["100-"]);
      assert outcome == Pass;
    }

    /** The fill at the end of __parse_pulse_shape: all zeros, then ones over each pulse's interval. */
    method FillWaveforms(plan: Plan)
      requires Valid() && WellFormed(plan)
      modifies ch1, ch2
      ensures Valid() && Shows(plan)
    {
      forall k | 0 <= k < ch1.Length {
        ch1[k] := 0;
      }
      forall k | 0 <= k < ch2.Length {
        ch2[k] := 0;
      }
      var ts, pol := plan.timeStep, plan.polarity;
      for i := 1 to |ts|
        invariant forall k :: 0 <= k < WaveformPoints ==> ch1[k] == Level(ts[..i], pol[..i], Negative, k)
        invariant forall k :: 0 <= k < WaveformPoints ==> ch2[k] == Level(ts[..i], pol[..i], Positive, k)
      {
        assert ts[..i + 1][..i] == ts[..i] && pol[..i + 1][..i] == pol[..i];
        assert 0 <= ts[i - 1] < ts[i] <= ts[|ts| - 1];
        if pol[i] == Negative {
          forall k | ts[i - 1] <= k < ts[i] {
            ch1[k] := 1;
          }
        } else if pol[i] == Positive {
          forall k | ts[i - 1] <= k < ts[i] {
            ch2[k] := 1;
          }
        }
      }
      assert ts[..|ts|] == ts && pol[..|pol|] == pol;
      forall k | 0 <= k < WaveformPoints
        ensures ch1[k] == 0 || ch2[k] == 0
      {
        LevelsDisjoint(ts, pol, k);
      }
    }

    /** __parse_pulse_shape: raises what the plan raises and leaves the waveforms
        alone, or fills them with the plan at the current frequency. */
    method ParsePulseShape(shape: seq<string>) returns (r: Outcome)
      requires Valid()
      modifies ch1, ch2
      ensures Valid()
      ensures r == ParseOutcome(shape, frequency)
      ensures r.Fail? ==> unchanged(ch1, ch2)
      ensures r == Pass ==> Shows(PlanPulseShape(shape, frequency).value)
    {
      var plan := CollectSteps(shape, frequency);
      if plan.Err? {
        return Fail(plan.error);
      }
      FillWaveforms(plan.value);
      r := Pass;
    }

    /** The pulse_shape setter: the shape is stored only once it parses. */
    method SetPulseShape(shape: seq<string>) returns (r: Outcome)
      requires Valid()
      modifies this`pulseShape, ch1, ch2
      ensures Valid()
      ensures r == ParseOutcome(shape, frequency)
      ensures r.Fail? ==> pulseShape == old(pulseShape) && unchanged(ch1, ch2)
      ensures r == Pass ==> pulseShape == shape && Shows(PlanPulseShape(shape, frequency).value)
    {
      r := ParsePulseShape(shape);
      if r == Pass {
        pulseShape := shape;
      }
    }

    /** The output setter: always off while disconnected, otherwise the requested state. */
    method SetOutput(value: bool)
      requires Valid()
      modifies this`output
      ensures Valid()
      ensures output == (connected && value)
    {
      if !connected {
        output := false;
      } else if value != output {
        output := value;
      }
    }

    /** The frequency setter with the corrected guard; on a change it re-parses
        the stored shape and, while pulsing, switches the output off and on again. */
    method SetFrequency(value: PyValue) returns (r: Outcome)
      requires Valid()
      modifies this`frequency, this`output, ch1, ch2
      ensures Valid()
      ensures (frequency, r) == FrequencyUpdate(old(frequency), pulseShape, value)
      ensures output == old(output)
      ensures frequency != old(frequency) && r == Pass ==> Shows(PlanPulseShape(pulseShape, frequency).value)
      ensures frequency == old(frequency) || r.Fail? ==> unchanged(ch1, ch2)
    {
      ghost var expected := FrequencyUpdate(frequency, pulseShape, value);
      var f := IntOf(value);
      if f.None? {
        return Fail(ValueError(FrequencyNotInteger));
      }
      if f.value > MaxFrequency {
        return Fail(ValueError(FrequencyTooHigh));
      }
      if f.value < 1 {
        return Fail(ValueError(FrequencyNotPositive));
      }
      if f.value == frequency {
        return Pass;
      }
      frequency := f.value;
      r := ParsePulseShape(pulseShape);
      assert expected == (frequency, r);
      if r == Pass && connected {
        RestartOutput();
      }
    }

    /** The instrument update after a frequency change: a pulsing output is
        switched off and on again around it, so its state is kept. */
    method RestartOutput()
      requires Valid()
      modifies this`output
      ensures Valid() && output == old(output)
    {
      var isPulsing := output;
      if isPulsing {
        SetOutput(false);
        SetOutput(true);
      }
    }

    /** The ch2_enabled setter: the flag follows the value (the commands it sends are not modelled). */
    method SetCh2Enabled(value: bool)
      requires Valid()
      modifies this`ch2Enabled
      ensures Valid() && ch2Enabled == value
    {
      ch2Enabled := value;
    }

    /** Instrument.connect: the connection is open. */
    method Connect()
      requires Valid()
      modifies this`connected
      ensures Valid() && connected
    {
      connected := true;
    }

    /** The state initialization leaves behind: connected, output off. */
    method Initialization()
      requires Valid()
      modifies this`output, this`connected
      ensures Valid() && connected && !output
    {
      output := false;
      connected := true;
    }

    /** disconnect: stops pulsing first, then drops the connection. */
    method Disconnect()
      requires Valid()
      modifies this`output, this`connected
      ensures Valid() && !connected && !output
    {
      if output {
        SetOutput(false);
      }
      connected := false;
    }
  }
}
