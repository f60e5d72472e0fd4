/** The secure query builder (`MRQuery` in query-builder.js): an untrusted,
    JSON-deserialised list of `{mN, args}` steps is checked against an
    allow-list of query methods and turned into the sequence of calls applied
    to the backend query, plus an options summary indexed by method name.

    The per-method argument validators and the allow-list (the keys of the
    validation module) are not part of this model: they are the parameter
    `v`. The backend query itself is modelled as the list of calls applied to
    it, in order. */
module QueryBuilder {

  /** The hard-coded maximum number of steps. */
  const MaxQueryLength: nat := 70

  /** Methods that may occur at most once in a query. */
  const CallJustOnce: set<string> := {"findOne", "select", "count", "sort", "limit", "skip"}

  /** One JSON-deserialised argument value. */
  type Arg = string

  /** The `args` property of a step: an array, or anything else. */
  datatype Args = NotArray | ArgList(items: seq<Arg>)

  /** One element of the client query: a falsy value (`null`, `undefined`,
      `0`, ...) or an object with a method name and its arguments. */
  datatype Step = Falsy | Call(mN: string, args: Args)

  /** The deserialised client query: an array of steps, or anything else. */
  datatype ClientQuery = NotAnArray | StepArray(steps: seq<Step>)

  /** What a per-method validator returns: nothing, or an `Error`. */
  datatype Verdict = Accept | Reject(error: string)

  /** The validation module: its method names (the allow-list) and the
      validator for each of them. */
  datatype Validations = Validations(methods: set<string>, check: (string, seq<Arg>) -> Verdict)

  /** A value in the options summary: the arguments of the call, or the
      `true` that a live `count` stores. */
  datatype OptValue = Given(args: seq<Arg>) | Flag

  /** The options summary `opts`: the single-use methods by name and the
      accumulated `populate` argument lists. */
  datatype Opts = Opts(once: map<string, OptValue>, populate: seq<seq<Arg>>)

  /** One call applied to the backend query: `query[mN].apply(query, args)`. */
  datatype Applied = Applied(name: string, args: seq<Arg>)

  /** What `MRQuery` returns: `{opts, mQuery}`. */
  datatype Built = Built(opts: Opts, mQuery: seq<Applied>)

  /** The errors `MRQuery` throws. */
  datatype QueryError =
    | QueryNotArray                 // TypeError: Query must be an array
    | QueryTooLong                  // Maximum query length ... bigger than allowed
    | UnsupportedMethod(name: string)
    | ArgsNotArray(name: string)    // TypeError: Method arguments ... must be array
    | ValidationFailed(error: string)
    | SortWithCount                 // sort and count in one query
    | CalledTwice(name: string)     // ... can be called just once per query

  datatype Result = Ok(built: Built) | Err(error: QueryError)

  /** The outcome of one loop iteration: go on, `break`, or throw. */
  datatype StepOutcome = Next(next: Built) | Done(last: Built) | Failed(e: QueryError)

  /** The state before the loop: `opts = {populate: []}` and `model.find()`. */
  const Initial: Built := Built(Opts(map[], []), [])

  /** One iteration of the loop body on step `{mN: m, args}`. */
  function StepOf(b: Built, m: string, args: Args, isLive: bool, v: Validations): StepOutcome
  {
    if m !in v.methods then Failed(UnsupportedMethod(m))
    else if args.NotArray? then Failed(ArgsNotArray(m))
    else if v.check(m, args.items).Reject? then Failed(ValidationFailed(v.check(m, args.items).error))
    else if m in CallJustOnce && m == "sort" && "count" in b.opts.once then Failed(SortWithCount)
    else if m in CallJustOnce && m in b.opts.once then Failed(CalledTwice(m))
    else
      var opts :=
        if m in CallJustOnce then b.opts.(once := b.opts.once[m := Given(args.items)])
        else if m == "populate" then b.opts.(populate := b.opts.populate + [args.items])
        else b.opts;
      if m == "count" && isLive then Done(Built(opts.(once := opts.once["count" := Flag]), b.mQuery))
      else Next(Built(opts, b.mQuery + [Applied(m, args.items)]))
  }

  /** The loop from index `i` on, with the state `b` reached so far. */
  function Run(steps: seq<Step>, i: nat, b: Built, isLive: bool, v: Validations): Result
    requires i <= |steps|
    decreases |steps| - i
  {
    if i == |steps| || steps[i].Falsy? then Ok(b)
    else match StepOf(b, steps[i].mN, steps[i].args, isLive, v)
      case Failed(e) => Err(e)
      case Done(b') => Ok(b')
      case Next(b') => Run(steps, i + 1, b', isLive, v)
  }

  /** What `MRQuery(model, clientQuery, isLive)` returns or throws. */
  function Build(q: ClientQuery, isLive: bool, v: Validations): Result
  {
    if q.NotAnArray? then Err(QueryNotArray)
    else if |q.steps| > MaxQueryLength then Err(QueryTooLong)
    else Run(q.steps, 0, Initial, isLive, v)
  }

  /** `MRQuery`, with the source's `while (clientQuery[ind])` loop mutating
      `opts` and reassigning `query`. */
  method MRQuery(clientQuery: ClientQuery, isLive: bool, v: Validations) returns (r: Result)
    ensures r == Build(clientQuery, isLive, v)
    ensures clientQuery.NotAnArray? ==> r == Err(QueryNotArray)
    ensures clientQuery.StepArray? && |clientQuery.steps| > MaxQueryLength ==> r == Err(QueryTooLong)
  {
    if clientQuery.NotAnArray? {
      return Err(QueryNotArray);
    }
    var steps := clientQuery.steps;
    if |steps| > MaxQueryLength {
      return Err(QueryTooLong);
    }
    var once: map<string, OptValue> := map[];
    var populate: seq<seq<Arg>> := [];
    var query: seq<Applied> := [];
    var ind := 0;
    while ind < |steps| && steps[ind].Call?
      invariant 0 <= ind <= |steps|
      invariant Run(steps, ind, Built(Opts(once, populate), query), isLive, v) == Build(clientQuery, isLive, v)
      decreases |steps| - ind
    {
      var methodName := steps[ind].mN;
      if methodName in v.methods {
        var args := steps[ind].args;
        if args.ArgList? {
          var validationResult := v.check(methodName, args.items);
          if validationResult.Reject? {
            return Err(ValidationFailed(validationResult.error));
          }
          if methodName in CallJustOnce {
            if methodName == "sort" && "count" in once {
              return Err(SortWithCount);
            }
            if methodName in once {
              return Err(CalledTwice(methodName));
            } else {
              once := once[methodName := Given(args.items)];
            }
          } else if methodName == "populate" {
            populate := populate + [args.items];
          }
          if methodName == "count" && isLive {
            once := once["count" := Flag];
            break;
          }
          query := query + [Applied(methodName, args.items)];
        } else {
          return Err(ArgsNotArray(methodName));
        }
      } else {
        return Err(UnsupportedMethod(methodName));
      }
      ind := ind + 1;
    }
    r := Ok(Built(Opts(once, populate), query));
  }

  // ---------------------------------------------------------------------
  // An independent description of what the loop accepts and builds.
  // ---------------------------------------------------------------------

  /** One past the last step the loop looks at when no step fails: it stops
      at the end of the array, at a falsy element, or (live) just after the
      first `count`. */
  function End(steps: seq<Step>, i: nat, isLive: bool): (e: nat)
    requires i <= |steps|
    ensures i <= e <= |steps|
    decreases |steps| - i
  {
    if i == |steps| || steps[i].Falsy? then i
    else if isLive && steps[i].mN == "count" then i + 1
    else End(steps, i + 1, isLive)
  }

  /** A step the per-step checks let through. */
  predicate StepAcceptable(s: Step, v: Validations)
  {
    s.Call? && s.mN in v.methods && s.args.ArgList? && v.check(s.mN, s.args.items).Accept?
  }

  /** A run of steps that the builder accepts as a whole: every step is
      allow-listed, has array arguments and passes its validator; no
      single-use method occurs twice; no `sort` follows a `count`. */
  predicate Acceptable(p: seq<Step>, v: Validations)
  {
    && (forall k :: 0 <= k < |p| ==> StepAcceptable(p[k], v))
    && (forall j, k :: 0 <= j < k < |p| && p[j].Call? && p[k].Call? && p[j].mN == p[k].mN ==>
          p[k].mN !in CallJustOnce)
    && (forall j, k :: 0 <= j < k < |p| && p[j].Call? && p[k].Call? && p[j].mN == "count" ==>
          p[k].mN != "sort")
  }

  /** The method names called in `p`. */
  function Names(p: seq<Step>): set<string>
  {
    set k | 0 <= k < |p| && p[k].Call? :: p[k].mN
  }

  function ArgsOf(s: Step): seq<Arg>
  {
    if s.Call? && s.args.ArgList? then s.args.items else []
  }

  /** The arguments of the first call of `m` in `p`. */
  function FirstArgs(p: seq<Step>, m: string): seq<Arg>
    decreases |p|
  {
    if |p| == 0 then []
    else if m in Names(p[..|p| - 1]) then FirstArgs(p[..|p| - 1], m)
    else ArgsOf(p[|p| - 1])
  }

  /** The arguments of every `populate` call in `p`, in order. */
  function Populates(p: seq<Step>): seq<seq<Arg>>
    decreases |p|
  {
    if |p| == 0 then []
    else
      var last := p[|p| - 1];
      Populates(p[..|p| - 1]) + (if last.Call? && last.mN == "populate" then [ArgsOf(last)] else [])
  }

  /** Every call of `p`, as applied to the backend query. */
  function AppliedOf(p: seq<Step>): seq<Applied>
    decreases |p|
  {
    if |p| == 0 then []
    else
      var last := p[|p| - 1];
      AppliedOf(p[..|p| - 1]) + (if last.Call? then [Applied(last.mN, ArgsOf(last))] else [])
  }

  /** The single-use part of the summary: each single-use method called in
      `p`, with the arguments of its (first) call. */
  function OnceOf(p: seq<Step>): map<string, OptValue>
  {
    map m | m in Names(p) * CallJustOnce :: Given(FirstArgs(p, m))
  }

  /** True when `p` ends with the `count` that stops a live query. */
  predicate EndsWithLiveCount(p: seq<Step>, isLive: bool)
  {
    isLive && |p| > 0 && p[|p| - 1].Call? && p[|p| - 1].mN == "count"
  }

  /** What the builder returns for an accepted run `p`: a live `count` is
      recorded as `true` and is not applied to the backend query. */
  function Summary(p: seq<Step>, isLive: bool): Built
  {
    if EndsWithLiveCount(p, isLive) then
      var q := p[..|p| - 1];
      Built(Opts(OnceOf(q)["count" := Flag], Populates(q)), AppliedOf(q))
    else
      Built(Opts(OnceOf(p), Populates(p)), AppliedOf(p))
  }

  lemma NamesSnoc(p: seq<Step>, x: Step)
    ensures Names(p + [x]) == Names(p) + (if x.Call? then {x.mN} else {})
  {
    var q := p + [x];
    forall m | m in Names(q) ensures m in Names(p) + (if x.Call? then {x.mN} else {}) {
      var k :| 0 <= k < |q| && q[k].Call? && q[k].mN == m;
      if k < |p| { assert p[k] == q[k]; }
    }
    forall m | m in Names(p) ensures m in Names(q) {
      var k :| 0 <= k < |p| && p[k].Call? && p[k].mN == m;
      assert q[k] == p[k];
    }
    if x.Call? { assert q[|p|] == x; }
  }

  lemma {:induction false} OnceOfSnoc(p: seq<Step>, x: Step)
    requires x.Call?
    ensures x.mN in CallJustOnce && x.mN !in Names(p) ==>
      OnceOf(p + [x]) == OnceOf(p)[x.mN := Given(ArgsOf(x))]
    ensures x.mN !in CallJustOnce ==> OnceOf(p + [x]) == OnceOf(p)
  {
    var q := p + [x];
    assert q[..|q| - 1] == p;
    NamesSnoc(p, x);
    forall m | m in Names(p) ensures FirstArgs(q, m) == FirstArgs(p, m) { }
  }

  lemma AcceptableSnoc(p: seq<Step>, x: Step, v: Validations)
    requires forall k :: 0 <= k < |p| ==> p[k].Call?
    requires x.Call?
    ensures Acceptable(p + [x], v) <==>
      && Acceptable(p, v) && StepAcceptable(x, v)
      && !(x.mN in CallJustOnce && x.mN in Names(p))
      && !(x.mN == "sort" && "count" in Names(p))
  {
    var q := p + [x];
    assert forall k :: 0 <= k < |p| ==> q[k] == p[k];
    assert q[|p|] == x;
    if Acceptable(q, v) {
      if x.mN in Names(p) {
        var j :| 0 <= j < |p| && p[j].Call? && p[j].mN == x.mN;
        assert q[j].mN == q[|p|].mN;
      }
      if "count" in Names(p) {
        var j :| 0 <= j < |p| && p[j].Call? && p[j].mN == "count";
        assert q[j].mN == "count";
      }
    }
  }

  lemma AcceptablePrefix(p: seq<Step>, n: nat, v: Validations)
    requires n <= |p|
    ensures Acceptable(p, v) ==> Acceptable(p[..n], v)
  {
    var q := p[..n];
    assert forall k :: 0 <= k < n ==> q[k] == p[k];
  }

  /** The summary of the steps processed so far, before a live `count`. */
  function Plain(p: seq<Step>): Built
  {
    Built(Opts(OnceOf(p), Populates(p)), AppliedOf(p))
  }

  lemma SummaryPlain(p: seq<Step>, isLive: bool)
    requires isLive ==> "count" !in Names(p)
    ensures Summary(p, isLive) == Plain(p)
  {
    if |p| > 0 && p[|p| - 1].Call? {
      assert p[|p| - 1].mN in Names(p);
    }
  }

  /** One iteration agrees with the description: it throws exactly when the
      step makes the run unacceptable, and otherwise extends the summary. */
  lemma StepCharacterised(p: seq<Step>, x: Step, isLive: bool, v: Validations)
    requires forall k :: 0 <= k < |p| ==> p[k].Call?
    requires x.Call?
    requires Acceptable(p, v)
    requires isLive ==> "count" !in Names(p)
    ensures StepOf(Plain(p), x.mN, x.args, isLive, v).Failed? <==> !Acceptable(p + [x], v)
    ensures !StepOf(Plain(p), x.mN, x.args, isLive, v).Failed? ==>
      (StepOf(Plain(p), x.mN, x.args, isLive, v).Done? <==> EndsWithLiveCount(p + [x], isLive))
    ensures StepOf(Plain(p), x.mN, x.args, isLive, v).Next? ==>
      StepOf(Plain(p), x.mN, x.args, isLive, v).next == Plain(p + [x])
    ensures StepOf(Plain(p), x.mN, x.args, isLive, v).Done? ==>
      StepOf(Plain(p), x.mN, x.args, isLive, v).last == Summary(p + [x], isLive)
  {
    StepFailure(p, x, isLive, v);
    if !StepOf(Plain(p), x.mN, x.args, isLive, v).Failed? {
      StepSuccess(p, x, isLive, v);
    }
  }

  /** The failure half of `StepCharacterised`. */
  lemma StepFailure(p: seq<Step>, x: Step, isLive: bool, v: Validations)
    requires forall k :: 0 <= k < |p| ==> p[k].Call?
    requires x.Call?
    requires Acceptable(p, v)
    ensures StepOf(Plain(p), x.mN, x.args, isLive, v).Failed? <==> !Acceptable(p + [x], v)
  {
    AcceptableSnoc(p, x, v);
    var b := Plain(p);
    assert "count" in b.opts.once <==> "count" in Names(p);
    assert x.mN in CallJustOnce ==> (x.mN in b.opts.once <==> x.mN in Names(p));
  }

  /** The success half of `StepCharacterised`: the summary grows by the step. */
  lemma StepSuccess(p: seq<Step>, x: Step, isLive: bool, v: Validations)
    requires x.Call?
    requires isLive ==> "count" !in Names(p)
    requires !StepOf(Plain(p), x.mN, x.args, isLive, v).Failed?
    ensures StepOf(Plain(p), x.mN, x.args, isLive, v).Done? <==> EndsWithLiveCount(p + [x], isLive)
    ensures StepOf(Plain(p), x.mN, x.args, isLive, v).Next? ==>
      StepOf(Plain(p), x.mN, x.args, isLive, v).next == Plain(p + [x])
    ensures StepOf(Plain(p), x.mN, x.args, isLive, v).Done? ==>
      StepOf(Plain(p), x.mN, x.args, isLive, v).last == Summary(p + [x], isLive)
  {
    var q := p + [x];
    assert q[..|q| - 1] == p;
    OnceOfSnoc(p, x);
    var b := Plain(p);
    assert x.mN in CallJustOnce ==> x.mN !in Names(p);
    if x.mN == "count" && isLive {
      assert EndsWithLiveCount(q, isLive);
    } else {
      NamesSnoc(p, x);
      assert Populates(q) == Populates(p) + (if x.mN == "populate" then [ArgsOf(x)] else []);
      assert AppliedOf(q) == AppliedOf(p) + [Applied(x.mN, ArgsOf(x))];
    }
  }

  /** The induction behind `BuildCharacterised`: `Run` from step `i` with the
      summary of the steps before it. */
  lemma {:induction false} RunCharacterised(steps: seq<Step>, i: nat, isLive: bool, v: Validations)
    requires i <= |steps|
    requires Acceptable(steps[..i], v)
    requires isLive ==> "count" !in Names(steps[..i])
    ensures Run(steps, i, Plain(steps[..i]), isLive, v).Ok? <==> Acceptable(steps[..End(steps, i, isLive)], v)
    ensures Run(steps, i, Plain(steps[..i]), isLive, v).Ok? ==>
      Run(steps, i, Plain(steps[..i]), isLive, v).built == Summary(steps[..End(steps, i, isLive)], isLive)
    decreases |steps| - i
  {
    var p := steps[..i];
    if i == |steps| || steps[i].Falsy? {
      SummaryPlain(p, isLive);
    } else {
      var x := steps[i];
      assert steps[..i + 1] == p + [x];
      StepCharacterised(p, x, isLive, v);
      var r := StepOf(Plain(p), x.mN, x.args, isLive, v);
      if r.Failed? {
        RunFailedStep(steps, i, isLive, v);
      } else if r.Done? {
        assert End(steps, i, isLive) == i + 1;
      } else {
        assert End(steps, i, isLive) == End(steps, i + 1, isLive);
        NamesSnoc(p, x);
        RunCharacterised(steps, i + 1, isLive, v);
      }
    }
  }

  /** A step that fails makes every longer run unacceptable. */
  lemma RunFailedStep(steps: seq<Step>, i: nat, isLive: bool, v: Validations)
    requires i < |steps| && steps[i].Call?
    requires !Acceptable(steps[..i + 1], v)
    ensures !Acceptable(steps[..End(steps, i, isLive)], v)
  {
    var e := End(steps, i, isLive);
    assert i + 1 <= e;
    assert steps[..e][..i + 1] == steps[..i + 1];
    AcceptablePrefix(steps[..e], i + 1, v);
  }

  /** The builder succeeds exactly when the array has at most 70 steps and
      the steps it looks at (up to the first falsy element, or the first
      live `count`) are acceptable together; it then returns their summary. */
  lemma BuildCharacterised(q: ClientQuery, isLive: bool, v: Validations)
    ensures Build(q, isLive, v).Ok? <==>
      q.StepArray? && |q.steps| <= MaxQueryLength && Acceptable(q.steps[..End(q.steps, 0, isLive)], v)
    ensures Build(q, isLive, v).Ok? ==>
      Build(q, isLive, v).built == Summary(q.steps[..End(q.steps, 0, isLive)], isLive)
  {
    if q.StepArray? && |q.steps| <= MaxQueryLength {
      assert q.steps[..0] == [];
      assert Plain([]) == Initial;
      RunCharacterised(q.steps, 0, isLive, v);
    }
  }

  /** The error a step is refused with, given the accepted steps before it:
      a name outside the allow-list, arguments that are not an array, the
      validator's own `Error` (thrown as it is), a `sort` after a `count`,
      and otherwise the repetition of a single-use method. */
  function RefusalOf(before: seq<Step>, x: Step, v: Validations): QueryError
    requires x.Call?
  {
    if x.mN !in v.methods then UnsupportedMethod(x.mN)
    else if x.args.NotArray? then ArgsNotArray(x.mN)
    else if v.check(x.mN, x.args.items).Reject? then ValidationFailed(v.check(x.mN, x.args.items).error)
    else if x.mN == "sort" && "count" in Names(before) then SortWithCount
    else CalledTwice(x.mN)
  }

  /** The induction behind `BuildFailsAt`: from step `i`, with the summary of
      the steps before it, the loop reaches step `k` and throws its refusal. */
  lemma {:induction false} RunFailsAt(steps: seq<Step>, i: nat, k: nat, isLive: bool, v: Validations)
    requires i <= |steps| && i <= k < End(steps, i, isLive)
    requires Acceptable(steps[..k], v) && !Acceptable(steps[..k + 1], v)
    requires isLive ==> "count" !in Names(steps[..i])
    ensures steps[k].Call?
    ensures Run(steps, i, Plain(steps[..i]), isLive, v) == Err(RefusalOf(steps[..k], steps[k], v))
    decreases k - i
  {
    var p := steps[..i];
    var x := steps[i];
    assert steps[..k][..i] == p;
    AcceptablePrefix(steps[..k], i, v);
    assert steps[..i + 1] == p + [x];
    if i < k {
      assert End(steps, i, isLive) == End(steps, i + 1, isLive);
      assert steps[..k][..i + 1] == p + [x];
      AcceptablePrefix(steps[..k], i + 1, v);
      StepCharacterised(p, x, isLive, v);
      NamesSnoc(p, x);
      RunFailsAt(steps, i + 1, k, isLive, v);
    } else {
      StepFailure(p, x, isLive, v);
      assert "count" in OnceOf(p) <==> "count" in Names(p);
      assert x.mN in CallJustOnce ==> (x.mN in OnceOf(p) <==> x.mN in Names(p));
    }
  }

  /** Which error the builder throws: when the steps it looks at are
      acceptable up to step `k` but not including it, the result is step
      `k`'s refusal. */
  lemma BuildFailsAt(q: ClientQuery, k: nat, isLive: bool, v: Validations)
    requires q.StepArray? && |q.steps| <= MaxQueryLength
    requires k < End(q.steps, 0, isLive)
    requires Acceptable(q.steps[..k], v) && !Acceptable(q.steps[..k + 1], v)
    ensures q.steps[k].Call?
    ensures Build(q, isLive, v) == Err(RefusalOf(q.steps[..k], q.steps[k], v))
  {
    assert q.steps[..0] == [];
    assert Plain([]) == Initial;
    RunFailsAt(q.steps, 0, k, isLive, v);
  }

  /** A refused query has such a first refused step. */
  lemma FirstRefusedStep(q: ClientQuery, isLive: bool, v: Validations)
    requires q.StepArray? && |q.steps| <= MaxQueryLength
    requires Build(q, isLive, v).Err?
    ensures exists k :: (0 <= k < End(q.steps, 0, isLive) &&
      Acceptable(q.steps[..k], v) && !Acceptable(q.steps[..k + 1], v))
  {
    BuildCharacterised(q, isLive, v);
    var e := End(q.steps, 0, isLive);
    var k := 0;
    assert q.steps[..0] == [];
    while Acceptable(q.steps[..k + 1], v)
      invariant 0 <= k < e && Acceptable(q.steps[..k], v)
      decreases e - k
    {
      k := k + 1;
      if k == e {
        assert false;
      }
    }
  }

  // ---------------------------------------------------------------------
  // Consequences of the characterisation and of the loop's shape.
  // ---------------------------------------------------------------------

  lemma {:induction false} RunErrors(steps: seq<Step>, i: nat, b: Built, isLive: bool, v: Validations)
    requires i <= |steps|
    ensures Run(steps, i, b, isLive, v) != Err(QueryTooLong)
    ensures Run(steps, i, b, isLive, v) != Err(QueryNotArray)
    decreases |steps| - i
  {
    if i < |steps| && steps[i].Call? {
      match StepOf(b, steps[i].mN, steps[i].args, isLive, v)
      case Failed(e) =>
      case Done(b') =>
      case Next(b') => RunErrors(steps, i + 1, b', isLive, v);
    }
  }

  /** The length check: more than 70 steps always fails with the length
      error, and an array of at most 70 steps (exactly 70 included) never
      does, nor with the not-an-array error. */
  lemma LengthBound(steps: seq<Step>, isLive: bool, v: Validations)
    ensures |steps| > MaxQueryLength ==> Build(StepArray(steps), isLive, v) == Err(QueryTooLong)
    ensures |steps| <= MaxQueryLength ==>
      Build(StepArray(steps), isLive, v) != Err(QueryTooLong) &&
      Build(StepArray(steps), isLive, v) != Err(QueryNotArray)
  {
    if |steps| <= MaxQueryLength {
      RunErrors(steps, 0, Initial, isLive, v);
    }
  }

  lemma {:induction false} RunReadsUpToEnd(steps: seq<Step>, n: nat, i: nat, b: Built, isLive: bool, v: Validations)
    requires i <= n <= |steps|
    requires End(steps, i, isLive) <= n
    ensures Run(steps, i, b, isLive, v) == Run(steps[..n], i, b, isLive, v)
    decreases |steps| - i
  {
    var t := steps[..n];
    if i == |steps| || steps[i].Falsy? {
    } else if i == n {
      assert false;
    } else {
      assert t[i] == steps[i];
      match StepOf(b, steps[i].mN, steps[i].args, isLive, v)
      case Failed(e) =>
      case Done(b') =>
      case Next(b') =>
        if isLive && steps[i].mN == "count" {
        } else {
          RunReadsUpToEnd(steps, n, i + 1, b', isLive, v);
        }
    }
  }

  lemma {:induction false} EndAtFalsy(steps: seq<Step>, i: nat, k: nat, isLive: bool)
    requires i <= k < |steps| && steps[k].Falsy?
    ensures End(steps, i, isLive) <= k
    decreases k - i
  {
    if steps[i].Call? && !(isLive && steps[i].mN == "count") {
      EndAtFalsy(steps, i + 1, k, isLive);
    }
  }

  lemma {:induction false} EndAtLiveCount(steps: seq<Step>, i: nat, k: nat)
    requires i <= k < |steps| && steps[k].Call? && steps[k].mN == "count"
    ensures End(steps, i, true) <= k + 1
    decreases k - i
  {
    if steps[i].Call? && steps[i].mN != "count" {
      EndAtLiveCount(steps, i + 1, k);
    }
  }

  /** Processing stops silently at a falsy element: whatever follows it is
      never validated nor applied. */
  lemma FalsyEndsQuery(steps: seq<Step>, k: nat, isLive: bool, v: Validations)
    requires k < |steps| <= MaxQueryLength && steps[k].Falsy?
    ensures Build(StepArray(steps), isLive, v) == Build(StepArray(steps[..k]), isLive, v)
  {
    EndAtFalsy(steps, 0, k, isLive);
    RunReadsUpToEnd(steps, k, 0, Initial, isLive, v);
  }

  /** A live query stops at its first `count`: later steps are neither
      validated nor applied. */
  lemma LiveCountEndsQuery(steps: seq<Step>, k: nat, v: Validations)
    requires k < |steps| <= MaxQueryLength && steps[k].Call? && steps[k].mN == "count"
    ensures Build(StepArray(steps), true, v) == Build(StepArray(steps[..k + 1]), true, v)
  {
    EndAtLiveCount(steps, 0, k);
    RunReadsUpToEnd(steps, k + 1, 0, Initial, true, v);
  }

  /** A single-use method that occurs twice among the processed steps
      makes the builder throw. */
  lemma DuplicateRejected(steps: seq<Step>, j: nat, k: nat, isLive: bool, v: Validations)
    requires j < k < End(steps, 0, isLive)
    requires steps[j].Call? && steps[k].Call? && steps[j].mN == steps[k].mN
    requires steps[k].mN in CallJustOnce
    ensures Build(StepArray(steps), isLive, v).Err?
  {
    BuildCharacterised(StepArray(steps), isLive, v);
    var p := steps[..End(steps, 0, isLive)];
    assert p[j] == steps[j] && p[k] == steps[k];
  }

  /** A `sort` after a `count` among the processed steps makes the builder
      throw. */
  lemma SortAfterCountRejected(steps: seq<Step>, j: nat, k: nat, isLive: bool, v: Validations)
    requires j < k < End(steps, 0, isLive)
    requires steps[j].Call? && steps[j].mN == "count" && steps[k].Call? && steps[k].mN == "sort"
    ensures Build(StepArray(steps), isLive, v).Err?
  {
    BuildCharacterised(StepArray(steps), isLive, v);
    var p := steps[..End(steps, 0, isLive)];
    assert p[j] == steps[j] && p[k] == steps[k];
  }

  /** The reverse order is not checked: `sort` then `count` is accepted,
      and so, in a live query, is `count` then `sort`, since the loop stops
      at the `count`. */
  lemma CountSortOrders(v: Validations)
    requires "sort" in v.methods && "count" in v.methods
    requires v.check("sort", []) == Accept && v.check("count", []) == Accept
    ensures Build(StepArray([Call("sort", ArgList([])), Call("count", ArgList([]))]), false, v) ==
      Ok(Built(Opts(map["sort" := Given([]), "count" := Given([])], []), [Applied("sort", []), Applied("count", [])]))
    ensures Build(StepArray([Call("count", ArgList([])), Call("sort", ArgList([]))]), true, v) ==
      Ok(Built(Opts(map["count" := Flag], []), []))
    ensures Build(StepArray([Call("count", ArgList([])), Call("sort", ArgList([]))]), false, v) ==
      Err(SortWithCount)
  {
    var once: map<string, OptValue> := map["sort" := Given([])];
    assert once["count" := Given([])] == map["sort" := Given([]), "count" := Given([])];
    var live: map<string, OptValue> := map["count" := Given([])];
    assert live["count" := Flag] == map["count" := Flag];
  }

  lemma {:induction false} AppliedNames(p: seq<Step>)
    ensures forall a :: a in AppliedOf(p) ==> a.name in Names(p)
    decreases |p|
  {
    if |p| > 0 {
      var q := p[..|p| - 1];
      AppliedNames(q);
      NamesSnoc(q, p[|p| - 1]);
      assert q + [p[|p| - 1]] == p;
    }
  }

  lemma {:induction false} EndLiveNoCount(steps: seq<Step>, i: nat, k: nat)
    requires i <= |steps| && i <= k < End(steps, i, true) - 1
    ensures steps[k].Call? && steps[k].mN != "count"
    decreases k - i
  {
    if i < k {
      EndLiveNoCount(steps, i + 1, k);
    }
  }

  /** In a live query `count` only sets `opts.count = true`: it is never
      applied to the backend query. */
  lemma LiveCountNotApplied(steps: seq<Step>, v: Validations)
    requires Build(StepArray(steps), true, v).Ok?
    ensures forall a :: a in Build(StepArray(steps), true, v).built.mQuery ==> a.name != "count"
    ensures "count" in Build(StepArray(steps), true, v).built.opts.once ==>
      Build(StepArray(steps), true, v).built.opts.once["count"] == Flag
  {
    BuildCharacterised(StepArray(steps), true, v);
    var e := End(steps, 0, true);
    var p := steps[..e];
    var q := if EndsWithLiveCount(p, true) then p[..|p| - 1] else p;
    AppliedNames(q);
    forall k | 0 <= k < |q| ensures q[k].Call? && q[k].mN != "count" {
      assert q[k] == steps[k];
      if k < e - 1 {
        EndLiveNoCount(steps, 0, k);
      }
    }
  }
}
