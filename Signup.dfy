/**
 * The signup screen's view model (SignupViewModel.java).
 *
 * Four inputs (full name, email, password, newsletter flag) are combined
 * into a snapshot once each has a value; every new value re-emits the
 * snapshot's validity. A signup click samples the latest snapshot and
 * dispatches it to the API client; `formSubmitting` is raised before the
 * call and lowered when it terminates. API errors go to a separate error
 * channel that is cut off once signup has succeeded.
 *
 * The behaviour is a pure transition function `Step` over a `State`
 * record; `SignupViewModel` is the mutable object whose methods are proved
 * to perform exactly that transition. The API call is asynchronous: a
 * click dispatches call number `calls`, and the call's result arrives
 * later as a separate input naming that call.
 */
module Signup {
  import opened Common

  /** The value built by combineLatest from the four inputs. */
  datatype SignupData = SignupData(fullName: string, email: string, password: string, sendNewsletters: bool)

  /** Collaborators that are not part of this model: StringUtils.isEmail and I18nUtils.isCountryUS. */
  datatype Env = Env(isEmail: string -> bool, isCountryUS: string -> bool)

  /** Java's String.length(): UTF-16 code units, two for a character above U+FFFF. */
  function Utf16Length(s: string): (n: nat)
    ensures |s| <= n <= 2 * |s|
    ensures n == |s| <==> forall i :: 0 <= i < |s| ==> s[i] as int <= 0xFFFF
  {
    if s == [] then 0
    else
      var n := (if s[0] as int > 0xFFFF then 2 else 1) + Utf16Length(s[1..]);
      assert forall i :: 1 <= i < |s| ==> s[i] == s[1..][i - 1];
      n
  }

  /** A character outside the Basic Multilingual Plane, which UTF-16 stores as a surrogate pair. */
  predicate Supplementary(c: char)
  {
    c as int > 0xFFFF
  }

  /** The exact count: one unit per character, plus one more per supplementary character. */
  lemma {:induction false} Utf16LengthExact(s: string)
    ensures Utf16Length(s) == |s| + Count(s, Supplementary)
    decreases |s|
  {
    if s != [] {
      Utf16LengthExact(s[1..]);
      assert s == [s[0]] + s[1..];
      CountConcat([s[0]], s[1..], Supplementary);
      CountSnoc([], s[0], Supplementary);
      assert [] + [s[0]] == [s[0]];
    }
  }

  /** SignupData.isValid; the password length is counted as Java counts it. */
  predicate IsValid(d: SignupData, isEmail: string -> bool)
  {
    |d.fullName| > 0 && isEmail(d.email) && Utf16Length(d.password) >= 6
  }

  /** The arguments handed to client.signup. */
  datatype SignupRequest = SignupRequest(
    name: string, email: string, password: string, passwordConfirmation: string, sendNewsletters: bool)

  function RequestOf(d: SignupData): SignupRequest
  {
    SignupRequest(d.fullName, d.email, d.password, d.password, d.sendNewsletters)
  }

  /** Everything that can happen to the view model, in the order it happens. */
  datatype Input =
    | FullNameEdited(fullName: string)
    | EmailEdited(email: string)
    | PasswordEdited(password: string)
    | NewslettersToggled(checked: bool)
    | ConfigArrived(countryCode: string)
    | SignupClicked
    | CallTerminated(call: nat, result: ApiResult<AccessTokenEnvelope>)

  /** Everything the view model emits, on all of its output and error channels, in order. */
  datatype Output =
    | FormIsValid(valid: bool)
    | SendNewslettersIsChecked(checked: bool)
    | FormSubmitting(submitting: bool)
    | SignupRequested(call: nat, request: SignupRequest)
    | LoggedIn(user: User, accessToken: string)
    | SignupSuccess
    | SignupError(message: string)

  predicate IsSubmittingTrue(o: Output) { o == FormSubmitting(true) }
  predicate IsSubmittingFalse(o: Output) { o == FormSubmitting(false) }
  predicate IsValidity(o: Output) { o.FormIsValid? }
  predicate IsRequest(o: Output) { o.SignupRequested? }
  predicate IsSuccess(o: Output) { o.SignupSuccess? }
  predicate IsError(o: Output) { o.SignupError? }

  /**
   * The latest value of each input subject, whether the one config that
   * counts has arrived, the number of calls dispatched so far, the calls
   * still running, whether signupError has been cut off, and the outputs.
   */
  datatype State = State(
    fullName: Option<string>,
    email: Option<string>,
    password: Option<string>,
    sendNewsletters: Option<bool>,
    configTaken: bool,
    calls: nat,
    inFlight: set<nat>,
    errorsCutOff: bool,
    outputs: seq<Output>)

  function Init(): State
  {
    State(None, None, None, None, false, 0, {}, false, [])
  }

  /** The combined snapshot, present once every input has received a value. */
  function Snapshot(st: State): Option<SignupData>
  {
    if st.fullName.Some? && st.email.Some? && st.password.Some? && st.sendNewsletters.Some?
    then Some(SignupData(st.fullName.value, st.email.value, st.password.value, st.sendNewsletters.value))
    else None
  }

  /** A new input value: combineLatest re-emits formIsValid once the snapshot is complete. */
  function Revalidate(env: Env, st: State): State
  {
    match Snapshot(st)
    case None => st
    case Some(d) => st.(outputs := st.outputs + [FormIsValid(IsValid(d, env.isEmail))])
  }

  /** A value pushed onto the sendNewslettersIsChecked behaviour subject. */
  function SetNewsletters(env: Env, st: State, checked: bool): State
  {
    var st' := Revalidate(env, st.(sendNewsletters := Some(checked)));
    st'.(outputs := st'.outputs + [SendNewslettersIsChecked(checked)])
  }

  function Step(env: Env, st: State, input: Input): State
  {
    match input
    case FullNameEdited(s) => Revalidate(env, st.(fullName := Some(s)))
    case EmailEdited(s) => Revalidate(env, st.(email := Some(s)))
    case PasswordEdited(s) => Revalidate(env, st.(password := Some(s)))
    case NewslettersToggled(b) => SetNewsletters(env, st, b)
    case ConfigArrived(code) =>
      // take(1): only the first config sets the flag
      if st.configTaken then st
      else SetNewsletters(env, st.(configTaken := true), env.isCountryUS(code))
    case SignupClicked =>
      // takeWhen: a click before the first snapshot is dropped
      (match Snapshot(st)
       case None => st
       case Some(d) =>
         st.(calls := st.calls + 1,
             inFlight := st.inFlight + {st.calls},
             outputs := st.outputs + [FormSubmitting(true), SignupRequested(st.calls, RequestOf(d))]))
    case CallTerminated(call, result) =>
      if call !in st.inFlight then st
      else
        var st1 := st.(inFlight := st.inFlight - {call});
        match result
        case Ok(envelope) =>
          st1.(errorsCutOff := true,
               outputs := st.outputs + [LoggedIn(envelope.user, envelope.accessToken), SignupSuccess, FormSubmitting(false)])
        case ApiError(e) =>
          st1.(outputs := st.outputs + (if st.errorsCutOff then [] else [SignupError(e.errorMessage)])
                                     + [FormSubmitting(false)])
  }

  /** The state after a whole history of inputs, starting from construction. */
  function Run(env: Env, h: seq<Input>): State
  {
    if h == [] then Init() else Step(env, Run(env, h[..|h| - 1]), h[|h| - 1])
  }

  lemma RunSnoc(env: Env, h: seq<Input>, input: Input)
    ensures Run(env, h + [input]) == Step(env, Run(env, h), input)
  {
    assert (h + [input])[..|h|] == h;
  }

  // ---------------------------------------------------------------------------
  // The invariant every reachable state keeps

  /** Every login is immediately followed by signupSuccess. */
  ghost predicate LoginThenSuccess(outs: seq<Output>)
  {
    forall i :: 0 <= i < |outs| && outs[i].LoggedIn? ==> i + 1 < |outs| && outs[i + 1] == SignupSuccess
  }

  /** Every request passes the password as its own confirmation. */
  ghost predicate PasswordConfirmed(outs: seq<Output>)
  {
    forall i :: 0 <= i < |outs| && outs[i].SignupRequested? ==>
      outs[i].request.passwordConfirmation == outs[i].request.password
  }

  /** The order constraints on the output trace. */
  ghost predicate TraceOk(outs: seq<Output>)
  {
    NoneAfter(outs, IsSuccess, IsError) && LoginThenSuccess(outs) && PasswordConfirmed(outs)
  }

  /** One formSubmitting(true) per dispatched call, one formSubmitting(false) per terminated one. */
  ghost predicate Balanced(st: State)
  {
    && (forall c :: c in st.inFlight ==> c < st.calls)
    && Count(st.outputs, IsSubmittingTrue) == st.calls
    && Count(st.outputs, IsSubmittingFalse) + |st.inFlight| == st.calls
  }

  ghost predicate Inv(st: State)
  {
    && Balanced(st)
    && (st.errorsCutOff <==> Occurs(st.outputs, IsSuccess))
    && TraceOk(st.outputs)
    && (Snapshot(st).None? ==> st.calls == 0 && !Occurs(st.outputs, IsValidity) && !Occurs(st.outputs, IsRequest))
    && (st.configTaken ==> st.sendNewsletters.Some?)
  }

  lemma TraceAppend(s: seq<Output>, t: seq<Output>)
    requires TraceOk(s) && TraceOk(t)
    requires Occurs(s, IsSuccess) ==> !Occurs(t, IsError)
    ensures TraceOk(s + t)
  {
    AppendKeepsNoneAfter(s, t, IsSuccess, IsError);
    forall i | 0 <= i < |s + t| && (s + t)[i].LoggedIn?
      ensures i + 1 < |s + t| && (s + t)[i + 1] == SignupSuccess
    {
      if i >= |s| { assert t[i - |s|] == (s + t)[i]; }
    }
    forall i | 0 <= i < |s + t| && (s + t)[i].SignupRequested?
      ensures (s + t)[i].request.passwordConfirmation == (s + t)[i].request.password
    {
      if i >= |s| { assert t[i - |s|] == (s + t)[i]; }
    }
  }

  /** Appending outputs `t` to a state that satisfies the invariant. */
  lemma AppendOutputs(st: State, t: seq<Output>, st': State)
    requires Inv(st)
    requires st'.outputs == st.outputs + t
    requires TraceOk(t)
    requires Occurs(st.outputs, IsSuccess) ==> !Occurs(t, IsError)
    requires st'.errorsCutOff <==> st.errorsCutOff || Occurs(t, IsSuccess)
    requires forall c :: c in st'.inFlight ==> c < st'.calls
    requires Count(t, IsSubmittingTrue) + st.calls == st'.calls
    requires Count(t, IsSubmittingFalse) + |st'.inFlight| + st.calls == st'.calls + |st.inFlight|
    requires Snapshot(st').None? ==>
               Snapshot(st).None? && st'.calls == 0 && !Occurs(t, IsValidity) && !Occurs(t, IsRequest)
    requires st'.configTaken ==> st'.sendNewsletters.Some?
    ensures Inv(st')
  {
    TraceAppend(st.outputs, t);
    OccursConcat(st.outputs, t, IsSuccess);
    OccursConcat(st.outputs, t, IsValidity);
    OccursConcat(st.outputs, t, IsRequest);
    CountConcat(st.outputs, t, IsSubmittingTrue);
    CountConcat(st.outputs, t, IsSubmittingFalse);
  }

  /** The outputs of `Revalidate`: at most one validity event. */
  lemma RevalidateOutputs(env: Env, st: State)
    ensures var t := Revalidate(env, st).outputs[|st.outputs|..];
      && Revalidate(env, st) == st.(outputs := st.outputs + t)
      && (Snapshot(st).None? ==> t == [])
      && (Snapshot(st).Some? ==> t == [FormIsValid(IsValid(Snapshot(st).value, env.isEmail))])
  {
  }

  lemma RevalidateInv(env: Env, st: State, st0: State)
    requires Inv(st0)
    requires st == st0.(fullName := st.fullName, email := st.email, password := st.password,
                        sendNewsletters := st.sendNewsletters, configTaken := st.configTaken)
    requires st0.fullName.Some? ==> st.fullName.Some?
    requires st0.email.Some? ==> st.email.Some?
    requires st0.password.Some? ==> st.password.Some?
    requires st0.sendNewsletters.Some? ==> st.sendNewsletters.Some?
    requires st.configTaken ==> st.sendNewsletters.Some?
    ensures Inv(Revalidate(env, st))
  {
    var st' := Revalidate(env, st);
    RevalidateOutputs(env, st);
    var t := st'.outputs[|st0.outputs|..];
    assert st'.outputs == st0.outputs + t;
    assert Count(t, IsSubmittingTrue) == 0 && Count(t, IsSubmittingFalse) == 0 by {
      if t != [] { assert t[..0] == []; }
    }
    AppendOutputs(st0, t, st');
  }

  lemma NewslettersInv(env: Env, st0: State, st: State, checked: bool)
    requires Inv(st0)
    requires st == st0.(sendNewsletters := Some(checked), configTaken := st.configTaken)
    ensures Inv(SetNewsletters(env, st0.(configTaken := st.configTaken), checked))
  {
    var mid := Revalidate(env, st);
    RevalidateInv(env, st, st0);
    var st' := SetNewsletters(env, st0.(configTaken := st.configTaken), checked);
    assert st' == mid.(outputs := mid.outputs + [SendNewslettersIsChecked(checked)]);
    var t := [SendNewslettersIsChecked(checked)];
    assert Count(t, IsSubmittingTrue) == 0 && Count(t, IsSubmittingFalse) == 0 by { assert t[..0] == []; }
    AppendOutputs(mid, t, st');
  }

  lemma ClickInv(env: Env, st: State)
    requires Inv(st)
    ensures Inv(Step(env, st, SignupClicked))
  {
    var st' := Step(env, st, SignupClicked);
    if Snapshot(st).Some? {
      var t := [FormSubmitting(true), SignupRequested(st.calls, RequestOf(Snapshot(st).value))];
      assert st'.outputs == st.outputs + t;
      assert Count(t, IsSubmittingTrue) == 1 by { assert t[..1] == [t[0]]; assert [t[0]][..0] == []; }
      assert Count(t, IsSubmittingFalse) == 0 by { assert t[..1] == [t[0]]; assert [t[0]][..0] == []; }
      assert st.calls !in st.inFlight;
      assert |st'.inFlight| == |st.inFlight| + 1;
      AppendOutputs(st, t, st');
    }
  }

  lemma SucceededInv(env: Env, st: State, call: nat, envelope: AccessTokenEnvelope)
    requires Inv(st) && call in st.inFlight
    ensures Inv(Step(env, st, CallTerminated(call, Ok(envelope))))
  {
    var st' := Step(env, st, CallTerminated(call, Ok(envelope)));
    assert |st'.inFlight| + 1 == |st.inFlight|;
    var a, b, c := LoggedIn(envelope.user, envelope.accessToken), SignupSuccess, FormSubmitting(false);
    var t := [a, b, c];
    assert st'.outputs == st.outputs + t;
    assert t == [] + [a] + [b] + [c];
    CountSnoc([], a, IsSubmittingTrue);
    CountSnoc([a], b, IsSubmittingTrue);
    CountSnoc([a, b], c, IsSubmittingTrue);
    CountSnoc([], a, IsSubmittingFalse);
    CountSnoc([a], b, IsSubmittingFalse);
    CountSnoc([a, b], c, IsSubmittingFalse);
    assert Occurs(t, IsSuccess) by { assert IsSuccess(t[1]); }
    AppendOutputs(st, t, st');
  }

  lemma SucceededStep(env: Env, st: State, call: nat, envelope: AccessTokenEnvelope)
    requires call in st.inFlight
    ensures Step(env, st, CallTerminated(call, Ok(envelope))) ==
      st.(inFlight := st.inFlight - {call}, errorsCutOff := true,
          outputs := st.outputs + [LoggedIn(envelope.user, envelope.accessToken), SignupSuccess, FormSubmitting(false)])
  {
  }

  /** A failed call appends its error (unless cut off) and formSubmitting(false). */
  lemma FailedStep(env: Env, st: State, call: nat, e: ErrorEnvelope)
    requires call in st.inFlight
    ensures Step(env, st, CallTerminated(call, ApiError(e))) ==
      st.(inFlight := st.inFlight - {call},
          outputs := st.outputs + (if st.errorsCutOff then [] else [SignupError(e.errorMessage)])
                                + [FormSubmitting(false)])
  {
  }

  lemma FailedAfterCutOffInv(st: State, st': State, call: nat)
    requires Inv(st) && call in st.inFlight && st.errorsCutOff
    requires st' == st.(inFlight := st.inFlight - {call}, outputs := st.outputs + [FormSubmitting(false)])
    ensures Inv(st')
  {
    var f := FormSubmitting(false);
    assert |st'.inFlight| + 1 == |st.inFlight|;
    CountSnoc([], f, IsSubmittingTrue);
    CountSnoc([], f, IsSubmittingFalse);
    assert [] + [f] == [f];
    assert !Occurs([f], IsSuccess);
    AppendOutputs(st, [f], st');
  }

  lemma ErrorThenDoneFacts(message: string)
    ensures var t := [SignupError(message), FormSubmitting(false)];
      && TraceOk(t) && !Occurs(t, IsSuccess)
      && Count(t, IsSubmittingTrue) == 0 && Count(t, IsSubmittingFalse) == 1
  {
    var x, f := SignupError(message), FormSubmitting(false);
    CountSnoc([], x, IsSubmittingTrue);
    CountSnoc([], x, IsSubmittingFalse);
    CountSnoc([x], f, IsSubmittingTrue);
    CountSnoc([x], f, IsSubmittingFalse);
    assert [] + [x] == [x] && [x] + [f] == [x, f];
  }

  lemma FailedBeforeCutOffInv(st: State, st': State, call: nat, message: string)
    requires Inv(st) && call in st.inFlight && !st.errorsCutOff
    requires st' == st.(inFlight := st.inFlight - {call},
                        outputs := st.outputs + [SignupError(message), FormSubmitting(false)])
    ensures Inv(st')
  {
    assert |st'.inFlight| + 1 == |st.inFlight|;
    ErrorThenDoneFacts(message);
    AppendOutputs(st, [SignupError(message), FormSubmitting(false)], st');
  }

  lemma FailedInv(env: Env, st: State, call: nat, e: ErrorEnvelope)
    requires Inv(st) && call in st.inFlight
    ensures Inv(Step(env, st, CallTerminated(call, ApiError(e))))
  {
    FailedStep(env, st, call, e);
    var st' := Step(env, st, CallTerminated(call, ApiError(e)));
    if st.errorsCutOff {
      FailedAfterCutOffInv(st, st', call);
    } else {
      assert [SignupError(e.errorMessage)] + [FormSubmitting(false)] == [SignupError(e.errorMessage), FormSubmitting(false)];
      FailedBeforeCutOffInv(st, st', call, e.errorMessage);
    }
  }

  lemma TerminatedInv(env: Env, st: State, call: nat, result: ApiResult<AccessTokenEnvelope>)
    requires Inv(st)
    ensures Inv(Step(env, st, CallTerminated(call, result)))
  {
    if call in st.inFlight {
      match result
      case Ok(envelope) => SucceededInv(env, st, call, envelope);
      case ApiError(e) => FailedInv(env, st, call, e);
    }
  }

  lemma {:induction false} StepPreservesInv(env: Env, st: State, input: Input)
    requires Inv(st)
    ensures Inv(Step(env, st, input))
  {
    var st' := Step(env, st, input);
    match input
    case FullNameEdited(s) => RevalidateInv(env, st.(fullName := Some(s)), st);
    case EmailEdited(s) => RevalidateInv(env, st.(email := Some(s)), st);
    case PasswordEdited(s) => RevalidateInv(env, st.(password := Some(s)), st);
    case NewslettersToggled(b) =>
      NewslettersInv(env, st, st.(sendNewsletters := Some(b)), b);
    case ConfigArrived(code) =>
      if !st.configTaken {
        NewslettersInv(env, st, st.(configTaken := true, sendNewsletters := Some(env.isCountryUS(code))),
                       env.isCountryUS(code));
      }
    case SignupClicked => ClickInv(env, st);
    case CallTerminated(call, result) => TerminatedInv(env, st, call, result);
  }

  lemma {:induction false} RunInv(env: Env, h: seq<Input>)
    ensures Inv(Run(env, h))
  {
    if h != [] {
      RunInv(env, h[..|h| - 1]);
      StepPreservesInv(env, Run(env, h[..|h| - 1]), h[|h| - 1]);
    }
  }

  // ---------------------------------------------------------------------------
  // The latest value of each input, read off the input history

  function LatestFullName(h: seq<Input>): Option<string>
  {
    if h == [] then None
    else if h[|h| - 1].FullNameEdited? then Some(h[|h| - 1].fullName)
    else LatestFullName(h[..|h| - 1])
  }

  function LatestEmail(h: seq<Input>): Option<string>
  {
    if h == [] then None
    else if h[|h| - 1].EmailEdited? then Some(h[|h| - 1].email)
    else LatestEmail(h[..|h| - 1])
  }

  function LatestPassword(h: seq<Input>): Option<string>
  {
    if h == [] then None
    else if h[|h| - 1].PasswordEdited? then Some(h[|h| - 1].password)
    else LatestPassword(h[..|h| - 1])
  }

  predicate ConfigSeen(h: seq<Input>)
  {
    h != [] && (h[|h| - 1].ConfigArrived? || ConfigSeen(h[..|h| - 1]))
  }

  /** The newsletter flag: the latest toggle click, or the first config if it came later. */
  function LatestNewsletters(env: Env, h: seq<Input>): Option<bool>
  {
    if h == [] then None
    else
      var last, prior := h[|h| - 1], h[..|h| - 1];
      if last.NewslettersToggled? then Some(last.checked)
      else if last.ConfigArrived? && !ConfigSeen(prior) then Some(env.isCountryUS(last.countryCode))
      else LatestNewsletters(env, prior)
  }

  function LatestSnapshot(env: Env, h: seq<Input>): Option<SignupData>
  {
    match (LatestFullName(h), LatestEmail(h), LatestPassword(h), LatestNewsletters(env, h))
    case (Some(n), Some(e), Some(p), Some(b)) => Some(SignupData(n, e, p, b))
    case _ => None
  }

  /** What a step does to the input fields. */
  lemma StepFields(env: Env, st: State, input: Input)
    ensures var st' := Step(env, st, input);
      && st'.fullName == (if input.FullNameEdited? then Some(input.fullName) else st.fullName)
      && st'.email == (if input.EmailEdited? then Some(input.email) else st.email)
      && st'.password == (if input.PasswordEdited? then Some(input.password) else st.password)
      && st'.sendNewsletters == (if input.NewslettersToggled? then Some(input.checked)
                                 else if input.ConfigArrived? && !st.configTaken then Some(env.isCountryUS(input.countryCode))
                                 else st.sendNewsletters)
      && st'.configTaken == (st.configTaken || input.ConfigArrived?)
  {
  }

  /** The state's fields hold exactly the latest value of each input of the history. */
  lemma {:induction false} RunTracksHistory(env: Env, h: seq<Input>)
    ensures var st := Run(env, h);
      && st.fullName == LatestFullName(h)
      && st.email == LatestEmail(h)
      && st.password == LatestPassword(h)
      && st.sendNewsletters == LatestNewsletters(env, h)
      && st.configTaken == ConfigSeen(h)
      && Snapshot(st) == LatestSnapshot(env, h)
  {
    if h != [] {
      RunTracksHistory(env, h[..|h| - 1]);
      StepFields(env, Run(env, h[..|h| - 1]), h[|h| - 1]);
    }
  }

  // ---------------------------------------------------------------------------
  // Properties of every history

  /** Until each of the four inputs has a value there is no validity output and nothing is submitted. */
  lemma NothingUntilAllInputsFed(env: Env, h: seq<Input>)
    requires LatestSnapshot(env, h).None?
    ensures Run(env, h).calls == 0
    ensures forall i :: 0 <= i < |Run(env, h).outputs| ==>
      !Run(env, h).outputs[i].FormIsValid? && !Run(env, h).outputs[i].SignupRequested?
  {
    RunInv(env, h);
    RunTracksHistory(env, h);
  }

  /**
   * Once the snapshot exists, every new value of any of the four inputs emits
   * formIsValid for the updated snapshot; a toggle also re-emits the flag.
   */
  lemma EditRevalidates(env: Env, h: seq<Input>, input: Input)
    requires input.FullNameEdited? || input.EmailEdited? || input.PasswordEdited? || input.NewslettersToggled?
    ensures var before, after := Run(env, h).outputs, Run(env, h + [input]).outputs;
      var flag := if input.NewslettersToggled? then [SendNewslettersIsChecked(input.checked)] else [];
      match LatestSnapshot(env, h + [input])
      case None => after == before + flag
      case Some(d) =>
        after == before + [FormIsValid(|d.fullName| > 0 && env.isEmail(d.email) && Utf16Length(d.password) >= 6)] + flag
  {
    RunSnoc(env, h, input);
    RunTracksHistory(env, h + [input]);
  }

  /**
   * Only the first config sets the newsletter flag (from whether its country
   * is the US), and as a new flag value it re-emits formIsValid once the
   * snapshot exists, then the flag; later configs change nothing.
   */
  lemma OnlyFirstConfigCounts(env: Env, h: seq<Input>, countryCode: string)
    ensures ConfigSeen(h) ==> Run(env, h + [ConfigArrived(countryCode)]) == Run(env, h)
    ensures !ConfigSeen(h) ==>
      var before, after := Run(env, h).outputs, Run(env, h + [ConfigArrived(countryCode)]).outputs;
      var flag := env.isCountryUS(countryCode);
      && Run(env, h + [ConfigArrived(countryCode)]).sendNewsletters == Some(flag)
      && match LatestSnapshot(env, h + [ConfigArrived(countryCode)])
         case None => after == before + [SendNewslettersIsChecked(flag)]
         case Some(d) =>
           && d.sendNewsletters == flag
           && after == before + [FormIsValid(|d.fullName| > 0 && env.isEmail(d.email) && Utf16Length(d.password) >= 6)]
                              + [SendNewslettersIsChecked(flag)]
  {
    RunSnoc(env, h, ConfigArrived(countryCode));
    RunTracksHistory(env, h);
    RunTracksHistory(env, h + [ConfigArrived(countryCode)]);
  }

  /** A password of three characters above U+FFFF is six UTF-16 code units long, so it passes the length test. */
  lemma SupplementaryPasswordIsLongEnough(env: Env, name: string, email: string, b: bool)
    requires |name| > 0 && env.isEmail(email)
    ensures var p := ['\U{1F600}', '\U{1F600}', '\U{1F600}'];
      |p| == 3 && IsValid(SignupData(name, email, p, b), env.isEmail)
  {
    var p := ['\U{1F600}', '\U{1F600}', '\U{1F600}'];
    assert p[1..] == ['\U{1F600}', '\U{1F600}'];
    assert p[1..][1..] == ['\U{1F600}'];
  }

  /**
   * A click submits the latest snapshot, valid or not, passing the password
   * twice; before the first snapshot it is dropped.
   */
  lemma ClickSubmitsLatestSnapshot(env: Env, h: seq<Input>)
    ensures var before, after := Run(env, h), Run(env, h + [SignupClicked]);
      match LatestSnapshot(env, h)
      case None => after == before
      case Some(d) =>
        && after.calls == before.calls + 1
        && after.inFlight == before.inFlight + {before.calls}
        && after.outputs == before.outputs +
             [FormSubmitting(true),
              SignupRequested(before.calls, SignupRequest(d.fullName, d.email, d.password, d.password, d.sendNewsletters))]
  {
    RunSnoc(env, h, SignupClicked);
    RunTracksHistory(env, h);
  }

  /** A failed call reports its message (unless signup already succeeded), lowers the flag, and a later click dispatches again. */
  lemma FailureKeepsPipeline(env: Env, h: seq<Input>, call: nat, e: ErrorEnvelope)
    requires call in Run(env, h).inFlight
    ensures var before, after := Run(env, h), Run(env, h + [CallTerminated(call, ApiError(e))]);
      && after.outputs == before.outputs
           + (if Occurs(before.outputs, IsSuccess) then [] else [SignupError(e.errorMessage)])
           + [FormSubmitting(false)]
      && after.inFlight == before.inFlight - {call}
      && Run(env, h + [CallTerminated(call, ApiError(e)), SignupClicked]).calls == after.calls + 1
  {
    var fail := CallTerminated(call, ApiError(e));
    RunInv(env, h);
    RunSnoc(env, h, fail);
    assert h + [fail, SignupClicked] == (h + [fail]) + [SignupClicked];
    RunSnoc(env, h + [fail], SignupClicked);
  }

  /** A successful call logs the user in, then fires signupSuccess once, then lowers the flag. */
  lemma SuccessLogsInThenFires(env: Env, h: seq<Input>, call: nat, envelope: AccessTokenEnvelope)
    requires call in Run(env, h).inFlight
    ensures var before, after := Run(env, h), Run(env, h + [CallTerminated(call, Ok(envelope))]);
      && after.outputs == before.outputs
           + [LoggedIn(envelope.user, envelope.accessToken), SignupSuccess, FormSubmitting(false)]
      && after.inFlight == before.inFlight - {call}
      && after.errorsCutOff
  {
    RunSnoc(env, h, CallTerminated(call, Ok(envelope)));
  }

  /** A call terminates at most once: a second result for it changes nothing. */
  lemma TerminatesOnce(env: Env, h: seq<Input>, call: nat, r1: ApiResult<AccessTokenEnvelope>,
                       r2: ApiResult<AccessTokenEnvelope>)
    ensures Run(env, h + [CallTerminated(call, r1), CallTerminated(call, r2)]) ==
            Run(env, h + [CallTerminated(call, r1)])
  {
    var first := CallTerminated(call, r1);
    assert h + [first, CallTerminated(call, r2)] == (h + [first]) + [CallTerminated(call, r2)];
    RunSnoc(env, h + [first], CallTerminated(call, r2));
    RunSnoc(env, h, first);
  }

  /** formSubmitting(true) once per dispatched call, formSubmitting(false) once per terminated call. */
  lemma SubmittingPairs(env: Env, h: seq<Input>)
    ensures var st := Run(env, h);
      && Count(st.outputs, IsSubmittingTrue) == st.calls
      && Count(st.outputs, IsSubmittingFalse) + |st.inFlight| == Count(st.outputs, IsSubmittingTrue)
      && forall c :: c in st.inFlight ==> c < st.calls
  {
    RunInv(env, h);
  }

  /** signupError delivers nothing after signupSuccess has fired. */
  lemma ErrorsStopAtSuccess(env: Env, h: seq<Input>)
    ensures var outs := Run(env, h).outputs;
      forall i, j :: 0 <= i < j < |outs| && outs[i] == SignupSuccess ==> !outs[j].SignupError?
  {
    RunInv(env, h);
  }

  // ---------------------------------------------------------------------------
  // The view model object

  class SignupViewModel {
    const env: Env
    var fullName: Option<string>
    var email: Option<string>
    var password: Option<string>
    var sendNewslettersIsChecked: Option<bool>
    var configTaken: bool
    var calls: nat
    var inFlight: set<nat>
    var errorsCutOff: bool
    var outputs: seq<Output>

    function Model(): State
      reads this
    {
      State(fullName, email, password, sendNewslettersIsChecked, configTaken, calls, inFlight, errorsCutOff, outputs)
    }

    ghost predicate Valid()
      reads this
    {
      Inv(Model())
    }

    constructor (env: Env)
      ensures this.env == env && Model() == Init() && Valid()
    {
      this.env := env;
      fullName, email, password, sendNewslettersIsChecked := None, None, None, None;
      configTaken, calls, inFlight, errorsCutOff, outputs := false, 0, {}, false, [];
      new;
      assert Model() == Init();
      RunInv(env, []);
    }

    /** combineLatest: once every input has a value, emit the snapshot's validity. */
    method EmitValidity()
      modifies this`outputs
      ensures Model() == Revalidate(env, old(Model()))
    {
      match Snapshot(Model())
      case None =>
      case Some(d) =>
        outputs := outputs + [FormIsValid(IsValid(d, env.isEmail))];
    }

    method FullName(s: string)
      requires Valid()
      modifies this
      ensures Valid() && Model() == Step(env, old(Model()), FullNameEdited(s))
    {
      StepPreservesInv(env, Model(), FullNameEdited(s));
      fullName := Some(s);
      EmitValidity();
    }

    method Email(s: string)
      requires Valid()
      modifies this
      ensures Valid() && Model() == Step(env, old(Model()), EmailEdited(s))
    {
      StepPreservesInv(env, Model(), EmailEdited(s));
      email := Some(s);
      EmitValidity();
    }

    method Password(s: string)
      requires Valid()
      modifies this
      ensures Valid() && Model() == Step(env, old(Model()), PasswordEdited(s))
    {
      StepPreservesInv(env, Model(), PasswordEdited(s));
      password := Some(s);
      EmitValidity();
    }

    /** sendNewslettersIsChecked.onNext: subscribers see the new snapshot's validity, then the flag. */
    method PushNewsletters(checked: bool)
      modifies this`sendNewslettersIsChecked, this`outputs
      ensures Model() == SetNewsletters(env, old(Model()), checked)
    {
      sendNewslettersIsChecked := Some(checked);
      EmitValidity();
      outputs := outputs + [SendNewslettersIsChecked(checked)];
    }

    method SendNewslettersClick(checked: bool)
      requires Valid()
      modifies this
      ensures Valid() && Model() == Step(env, old(Model()), NewslettersToggled(checked))
    {
      StepPreservesInv(env, Model(), NewslettersToggled(checked));
      PushNewsletters(checked);
    }

    /** A config from currentConfig; take(1) keeps only the first. */
    method CurrentConfig(countryCode: string)
      requires Valid()
      modifies this
      ensures Valid() && Model() == Step(env, old(Model()), ConfigArrived(countryCode))
    {
      StepPreservesInv(env, Model(), ConfigArrived(countryCode));
      if !configTaken {
        configTaken := true;
        PushNewsletters(env.isCountryUS(countryCode));
      }
    }

    /** takeWhen(signupClick) then flatMap(submit): returns the number of the dispatched call, if any. */
    method SignupClick() returns (call: Option<nat>)
      requires Valid()
      modifies this
      ensures Valid() && Model() == Step(env, old(Model()), SignupClicked)
      ensures call == if Snapshot(old(Model())).Some? then Some(old(calls)) else None
    {
      StepPreservesInv(env, Model(), SignupClicked);
      match Snapshot(Model())
      case None =>
        call := None;
      case Some(d) =>
        call := Some(calls);
        outputs := outputs + [FormSubmitting(true), SignupRequested(calls, RequestOf(d))];
        inFlight := inFlight + {calls};
        calls := calls + 1;
    }

    /** The API client's result for call `call`: pipeApiErrorsTo + neverError, then doAfterTerminate. */
    method Terminate(call: nat, result: ApiResult<AccessTokenEnvelope>)
      requires Valid()
      modifies this
      ensures Valid() && Model() == Step(env, old(Model()), CallTerminated(call, result))
    {
      ghost var target := Step(env, Model(), CallTerminated(call, result));
      StepPreservesInv(env, Model(), CallTerminated(call, result));
      if call in inFlight {
        match result {
          case Ok(envelope) =>
            // success(): currentUser.login, then signupSuccess; takeUntil cuts signupError off
            SucceededStep(env, Model(), call, envelope);
            inFlight := inFlight - {call};
            outputs := outputs + [LoggedIn(envelope.user, envelope.accessToken), SignupSuccess, FormSubmitting(false)];
            errorsCutOff := true;
          case ApiError(e) =>
            FailedStep(env, Model(), call, e);
            inFlight := inFlight - {call};
            outputs := outputs + (if errorsCutOff then [] else [SignupError(e.errorMessage)]) + [FormSubmitting(false)];
        }
      }
      assert Model() == target;
    }
  }
}
