/**
 * The password-reset screen's view model (ResetPasswordViewModel.java).
 *
 * Every email edit emits whether it is an email address. A reset click
 * samples the latest email and sends it to the API client; because the
 * submission is a switchMap, a newer click supersedes the call in flight,
 * whose result is then discarded. `isFormSubmitting` is raised before the
 * call and lowered when it terminates; API errors go to `resetError`, which
 * is cut off once `resetSuccess` has fired.
 *
 * As for signup, the behaviour is the pure transition `Step` over `State`,
 * and `ResetPasswordViewModel` is the object whose methods perform it.
 */
module ResetPassword {
  import opened Common

  datatype Input =
    | EmailEdited(email: string)
    | ResetClicked
    | CallTerminated(call: nat, result: ApiResult<User>)

  datatype Output =
    | IsFormValid(valid: bool)
    | IsFormSubmitting(submitting: bool)
    | ResetRequested(call: nat, email: string)
    | ResetSuccess
    | ResetError(message: string)

  predicate IsSubmittingTrue(o: Output) { o == IsFormSubmitting(true) }
  predicate IsSubmittingFalse(o: Output) { o == IsFormSubmitting(false) }
  predicate IsRequest(o: Output) { o.ResetRequested? }
  predicate IsValidity(o: Output) { o.IsFormValid? }
  predicate IsSuccess(o: Output) { o.ResetSuccess? }
  predicate IsError(o: Output) { o.ResetError? }

  /**
   * The latest email, the number of calls dispatched, the one call switchMap
   * still listens to, whether resetError has been cut off, and the outputs.
   */
  datatype State = State(
    email: Option<string>,
    calls: nat,
    live: Option<nat>,
    errorsCutOff: bool,
    outputs: seq<Output>)

  function Init(): State
  {
    State(None, 0, None, false, [])
  }

  /** `isEmail` is StringUtils.isEmail, which is not part of this model. */
  function Step(isEmail: string -> bool, st: State, input: Input): State
  {
    match input
    case EmailEdited(e) =>
      st.(email := Some(e), outputs := st.outputs + [IsFormValid(isEmail(e))])
    case ResetClicked =>
      // takeWhen drops a click before the first email; switchMap drops the call in flight
      (match st.email
       case None => st
       case Some(e) =>
         st.(calls := st.calls + 1, live := Some(st.calls),
             outputs := st.outputs + [IsFormSubmitting(true), ResetRequested(st.calls, e)]))
    case CallTerminated(call, result) =>
      if st.live != Some(call) then st
      else
        match result
        case Ok(_) =>
          st.(live := None, errorsCutOff := true,
              outputs := st.outputs + [ResetSuccess, IsFormSubmitting(false)])
        case ApiError(e) =>
          st.(live := None,
              outputs := st.outputs + (if st.errorsCutOff then [] else [ResetError(e.errorMessage)])
                                    + [IsFormSubmitting(false)])
  }

  function Run(isEmail: string -> bool, h: seq<Input>): State
  {
    if h == [] then Init() else Step(isEmail, Run(isEmail, h[..|h| - 1]), h[|h| - 1])
  }

  lemma RunSnoc(isEmail: string -> bool, h: seq<Input>, input: Input)
    ensures Run(isEmail, h + [input]) == Step(isEmail, Run(isEmail, h), input)
  {
    assert (h + [input])[..|h|] == h;
  }

  // ---------------------------------------------------------------------------
  // The invariant every reachable state keeps

  ghost predicate Inv(st: State)
  {
    && (st.live.Some? ==> st.live.value + 1 == st.calls)
    && Count(st.outputs, IsSubmittingTrue) == st.calls
    && Count(st.outputs, IsSubmittingFalse) + (if st.live.Some? then 1 else 0) <= st.calls
    && (st.errorsCutOff <==> Occurs(st.outputs, IsSuccess))
    && NoneAfter(st.outputs, IsSuccess, IsError)
    && (st.email.None? ==> st.calls == 0 && !Occurs(st.outputs, IsRequest) && !Occurs(st.outputs, IsValidity))
  }

  lemma AppendOutputs(st: State, t: seq<Output>, st': State)
    requires Inv(st)
    requires st'.outputs == st.outputs + t
    requires NoneAfter(t, IsSuccess, IsError)
    requires Occurs(st.outputs, IsSuccess) ==> !Occurs(t, IsError)
    requires st'.errorsCutOff <==> st.errorsCutOff || Occurs(t, IsSuccess)
    requires st'.live.Some? ==> st'.live.value + 1 == st'.calls
    requires Count(t, IsSubmittingTrue) + st.calls == st'.calls
    requires Count(t, IsSubmittingFalse) + (if st'.live.Some? then 1 else 0) + st.calls
             <= st'.calls + (if st.live.Some? then 1 else 0)
    requires st'.email.None? ==>
               st.email.None? && st'.calls == 0 && !Occurs(t, IsRequest) && !Occurs(t, IsValidity)
    ensures Inv(st')
  {
    AppendKeepsNoneAfter(st.outputs, t, IsSuccess, IsError);
    OccursConcat(st.outputs, t, IsSuccess);
    OccursConcat(st.outputs, t, IsRequest);
    OccursConcat(st.outputs, t, IsValidity);
    CountConcat(st.outputs, t, IsSubmittingTrue);
    CountConcat(st.outputs, t, IsSubmittingFalse);
  }

  /** The counts and order facts of the two-event suffixes a step can append. */
  lemma PairFacts(a: Output, b: Output)
    requires !IsError(b) && !(IsSuccess(a) && IsError(b))
    ensures NoneAfter([a, b], IsSuccess, IsError)
    ensures Count([a, b], IsSubmittingTrue) == (if IsSubmittingTrue(a) then 1 else 0) + (if IsSubmittingTrue(b) then 1 else 0)
    ensures Count([a, b], IsSubmittingFalse) == (if IsSubmittingFalse(a) then 1 else 0) + (if IsSubmittingFalse(b) then 1 else 0)
    ensures Occurs([a, b], IsSuccess) <==> IsSuccess(a) || IsSuccess(b)
    ensures Occurs([a, b], IsError) <==> IsError(a)
    ensures Occurs([a, b], IsRequest) <==> IsRequest(a) || IsRequest(b)
  {
    CountSnoc([], a, IsSubmittingTrue);
    CountSnoc([], a, IsSubmittingFalse);
    CountSnoc([a], b, IsSubmittingTrue);
    CountSnoc([a], b, IsSubmittingFalse);
    assert [] + [a] == [a] && [a] + [b] == [a, b];
  }

  lemma EditInv(isEmail: string -> bool, st: State, e: string)
    requires Inv(st)
    ensures Inv(Step(isEmail, st, EmailEdited(e)))
  {
    var v := IsFormValid(isEmail(e));
    CountSnoc([], v, IsSubmittingTrue);
    CountSnoc([], v, IsSubmittingFalse);
    assert [] + [v] == [v];
    AppendOutputs(st, [v], Step(isEmail, st, EmailEdited(e)));
  }

  lemma ClickInv(isEmail: string -> bool, st: State)
    requires Inv(st)
    ensures Inv(Step(isEmail, st, ResetClicked))
  {
    if st.email.Some? {
      PairFacts(IsFormSubmitting(true), ResetRequested(st.calls, st.email.value));
      AppendOutputs(st, [IsFormSubmitting(true), ResetRequested(st.calls, st.email.value)],
                    Step(isEmail, st, ResetClicked));
    }
  }

  lemma SucceededInv(isEmail: string -> bool, st: State, call: nat, user: User)
    requires Inv(st) && st.live == Some(call)
    ensures Inv(Step(isEmail, st, CallTerminated(call, Ok(user))))
  {
    PairFacts(ResetSuccess, IsFormSubmitting(false));
    AppendOutputs(st, [ResetSuccess, IsFormSubmitting(false)], Step(isEmail, st, CallTerminated(call, Ok(user))));
  }

  /** What a failed live call does to the state. */
  lemma FailedStep(isEmail: string -> bool, st: State, call: nat, e: ErrorEnvelope)
    requires st.live == Some(call)
    ensures Step(isEmail, st, CallTerminated(call, ApiError(e))) ==
      st.(live := None,
          outputs := if st.errorsCutOff then st.outputs + [IsFormSubmitting(false)]
                     else st.outputs + [ResetError(e.errorMessage), IsFormSubmitting(false)])
  {
    assert st.outputs + [] + [IsFormSubmitting(false)] == st.outputs + [IsFormSubmitting(false)];
    assert st.outputs + [ResetError(e.errorMessage)] + [IsFormSubmitting(false)]
        == st.outputs + [ResetError(e.errorMessage), IsFormSubmitting(false)];
  }

  lemma FailedAfterCutOffInv(st: State, st': State)
    requires Inv(st) && st.live.Some? && st.errorsCutOff
    requires st' == st.(live := None, outputs := st.outputs + [IsFormSubmitting(false)])
    ensures Inv(st')
  {
    var f := IsFormSubmitting(false);
    CountSnoc([], f, IsSubmittingTrue);
    CountSnoc([], f, IsSubmittingFalse);
    assert [] + [f] == [f];
    AppendOutputs(st, [f], st');
  }

  lemma FailedBeforeCutOffInv(st: State, message: string, st': State)
    requires Inv(st) && st.live.Some? && !st.errorsCutOff
    requires st' == st.(live := None, outputs := st.outputs + [ResetError(message), IsFormSubmitting(false)])
    ensures Inv(st')
  {
    PairFacts(ResetError(message), IsFormSubmitting(false));
    AppendOutputs(st, [ResetError(message), IsFormSubmitting(false)], st');
  }

  lemma FailedInv(isEmail: string -> bool, st: State, call: nat, e: ErrorEnvelope)
    requires Inv(st) && st.live == Some(call)
    ensures Inv(Step(isEmail, st, CallTerminated(call, ApiError(e))))
  {
    var st' := Step(isEmail, st, CallTerminated(call, ApiError(e)));
    FailedStep(isEmail, st, call, e);
    if st.errorsCutOff {
      FailedAfterCutOffInv(st, st');
    } else {
      FailedBeforeCutOffInv(st, e.errorMessage, st');
    }
  }

  lemma {:induction false} StepPreservesInv(isEmail: string -> bool, st: State, input: Input)
    requires Inv(st)
    ensures Inv(Step(isEmail, st, input))
  {
    match input
    case EmailEdited(e) => EditInv(isEmail, st, e);
    case ResetClicked => ClickInv(isEmail, st);
    case CallTerminated(call, result) =>
      if st.live == Some(call) {
        match result
        case Ok(user) => SucceededInv(isEmail, st, call, user);
        case ApiError(e) => FailedInv(isEmail, st, call, e);
      }
  }

  lemma {:induction false} RunInv(isEmail: string -> bool, h: seq<Input>)
    ensures Inv(Run(isEmail, h))
  {
    if h != [] {
      RunInv(isEmail, h[..|h| - 1]);
      StepPreservesInv(isEmail, Run(isEmail, h[..|h| - 1]), h[|h| - 1]);
    }
  }

  // ---------------------------------------------------------------------------
  // Properties of every history

  function LatestEmail(h: seq<Input>): Option<string>
  {
    if h == [] then None
    else if h[|h| - 1].EmailEdited? then Some(h[|h| - 1].email)
    else LatestEmail(h[..|h| - 1])
  }

  lemma {:induction false} RunTracksEmail(isEmail: string -> bool, h: seq<Input>)
    ensures Run(isEmail, h).email == LatestEmail(h)
  {
    if h != [] {
      RunTracksEmail(isEmail, h[..|h| - 1]);
    }
  }

  /** Every email edit emits isFormValid equal to isEmail of that email, and nothing else. */
  lemma EveryEditEmitsValidity(isEmail: string -> bool, h: seq<Input>, e: string)
    ensures Run(isEmail, h + [EmailEdited(e)]).outputs == Run(isEmail, h).outputs + [IsFormValid(isEmail(e))]
  {
    RunSnoc(isEmail, h, EmailEdited(e));
  }

  /**
   * A click sends the most recently edited email, whatever the validity
   * output said, and makes that call the only live one; before the first
   * edit it is dropped.
   */
  lemma ClickSubmitsLatestEmail(isEmail: string -> bool, h: seq<Input>)
    ensures var before, after := Run(isEmail, h), Run(isEmail, h + [ResetClicked]);
      match LatestEmail(h)
      case None => after == before
      case Some(e) =>
        && after.live == Some(before.calls)
        && after.outputs == before.outputs + [IsFormSubmitting(true), ResetRequested(before.calls, e)]
  {
    RunSnoc(isEmail, h, ResetClicked);
    RunTracksEmail(isEmail, h);
  }

  /** Only the newest call can still produce output: the result of any older call is discarded. */
  lemma NewerClickSupersedes(isEmail: string -> bool, h: seq<Input>, call: nat, result: ApiResult<User>)
    requires call + 1 < Run(isEmail, h).calls
    ensures Run(isEmail, h + [CallTerminated(call, result)]) == Run(isEmail, h)
  {
    RunInv(isEmail, h);
    RunSnoc(isEmail, h, CallTerminated(call, result));
  }

  /** A successful live call emits resetSuccess exactly once, then lowers the flag. */
  lemma SuccessFiresOnce(isEmail: string -> bool, h: seq<Input>, call: nat, user: User, later: ApiResult<User>)
    requires Run(isEmail, h).live == Some(call)
    ensures var before, after := Run(isEmail, h), Run(isEmail, h + [CallTerminated(call, Ok(user))]);
      && after.outputs == before.outputs + [ResetSuccess, IsFormSubmitting(false)]
      && after.errorsCutOff
      && Run(isEmail, h + [CallTerminated(call, Ok(user)), CallTerminated(call, later)]) == after
  {
    var done := CallTerminated(call, Ok(user));
    RunSnoc(isEmail, h, done);
    assert h + [done, CallTerminated(call, later)] == (h + [done]) + [CallTerminated(call, later)];
    RunSnoc(isEmail, h + [done], CallTerminated(call, later));
  }

  /**
   * A failed live call routes its message to resetError (unless already cut
   * off), emits no resetSuccess, lowers the flag, a further result for the
   * call changes nothing, and a later click dispatches again.
   */
  lemma FailureKeepsPipeline(isEmail: string -> bool, h: seq<Input>, call: nat, e: ErrorEnvelope, later: ApiResult<User>)
    requires Run(isEmail, h).live == Some(call)
    ensures var before, after := Run(isEmail, h), Run(isEmail, h + [CallTerminated(call, ApiError(e))]);
      && after.outputs == before.outputs
           + (if Occurs(before.outputs, IsSuccess) then [] else [ResetError(e.errorMessage)])
           + [IsFormSubmitting(false)]
      && Run(isEmail, h + [CallTerminated(call, ApiError(e)), CallTerminated(call, later)]) == after
      && Run(isEmail, h + [CallTerminated(call, ApiError(e)), ResetClicked]).calls == after.calls + 1
  {
    var fail := CallTerminated(call, ApiError(e));
    RunInv(isEmail, h);
    assert h + [fail, CallTerminated(call, later)] == (h + [fail]) + [CallTerminated(call, later)];
    RunSnoc(isEmail, h + [fail], CallTerminated(call, later));
    RunSnoc(isEmail, h, fail);
    assert h + [fail, ResetClicked] == (h + [fail]) + [ResetClicked];
    RunSnoc(isEmail, h + [fail], ResetClicked);
  }

  /** isFormSubmitting(true) once per call; at most one false per call, none for a discarded call. */
  lemma SubmittingFlag(isEmail: string -> bool, h: seq<Input>)
    ensures var st := Run(isEmail, h);
      && Count(st.outputs, IsSubmittingTrue) == st.calls
      && Count(st.outputs, IsSubmittingFalse) + (if st.live.Some? then 1 else 0) <= Count(st.outputs, IsSubmittingTrue)
  {
    RunInv(isEmail, h);
  }

  /** resetError delivers nothing after resetSuccess has fired. */
  lemma ErrorsStopAtSuccess(isEmail: string -> bool, h: seq<Input>)
    ensures var outs := Run(isEmail, h).outputs;
      forall i, j :: 0 <= i < j < |outs| && outs[i] == ResetSuccess ==> !outs[j].ResetError?
  {
    RunInv(isEmail, h);
  }

  // ---------------------------------------------------------------------------
  // The view model object

  class ResetPasswordViewModel {
    const isEmail: string -> bool
    var email: Option<string>
    var calls: nat
    var live: Option<nat>
    var errorsCutOff: bool
    var outputs: seq<Output>

    function Model(): State
      reads this
    {
      State(email, calls, live, errorsCutOff, outputs)
    }

    ghost predicate Valid()
      reads this
    {
      Inv(Model())
    }

    constructor (isEmail: string -> bool)
      ensures this.isEmail == isEmail && Model() == Init() && Valid()
    {
      this.isEmail := isEmail;
      email, calls, live, errorsCutOff, outputs := None, 0, None, false, [];
      new;
      RunInv(isEmail, []);
    }

    method Email(s: string)
      requires Valid()
      modifies this
      ensures Valid() && Model() == Step(isEmail, old(Model()), EmailEdited(s))
    {
      StepPreservesInv(isEmail, Model(), EmailEdited(s));
      email := Some(s);
      outputs := outputs + [IsFormValid(isEmail(s))];
    }

    /** takeWhen(resetPasswordClick) then switchMap(submitEmail): returns the number of the dispatched call, if any. */
    method ResetPasswordClick() returns (call: Option<nat>)
      requires Valid()
      modifies this
      ensures Valid() && Model() == Step(isEmail, old(Model()), ResetClicked)
      ensures call == if old(email).Some? then Some(old(calls)) else None
    {
      StepPreservesInv(isEmail, Model(), ResetClicked);
      if email.Some? {
        call := Some(calls);
        outputs := outputs + [IsFormSubmitting(true), ResetRequested(calls, email.value)];
        live := Some(calls);
        calls := calls + 1;
      } else {
        call := None;
      }
    }

    /** The API client's result for call `call`; ignored unless that call is still the live one. */
    method Terminate(call: nat, result: ApiResult<User>)
      requires Valid()
      modifies this
      ensures Valid() && Model() == Step(isEmail, old(Model()), CallTerminated(call, result))
    {
      StepPreservesInv(isEmail, Model(), CallTerminated(call, result));
      if live == Some(call) {
        live := None;
        match result {
          case Ok(_) =>
            outputs := outputs + [ResetSuccess, IsFormSubmitting(false)];
            errorsCutOff := true;
          case ApiError(e) =>
            outputs := outputs + (if errorsCutOff then [] else [ResetError(e.errorMessage)]) + [IsFormSubmitting(false)];
        }
      }
    }
  }
}
