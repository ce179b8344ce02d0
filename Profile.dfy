/**
 * The preferences form of src/app/dashboard/profile/page.tsx: three
 * thresholds edited as numbers, then checked and sent to the server either
 * as an update (when the user's preferences are already configured) or as
 * the first initialisation. A threshold is a `Numbers.Num`, so NaN is a
 * possible value; `parseFloat` is a parameter; the thresholds are whole units.
 */
module Profile {
  import opened Wrappers
  import opened Numbers
  import opened Transactions

  /** `preferencesData` as the inputs hold it. */
  datatype Draft = Draft(bad: Num, ok: Num, good: Num)

  /** The initial `preferencesData`. */
  const Defaults: Draft := Draft(Finite(0), Finite(500), Finite(1500))

  const NotNumbersMessage: string := "Todos os limites devem ser números válidos"
  const OrderMessage: string := "Os limites devem estar em ordem crescente"

  datatype Endpoint = UpdatePreferences | InitPreferences

  /** What a submission does: show a message without calling the server, or call one endpoint. */
  datatype Decision = Rejected(message: string) | Send(endpoint: Endpoint, payload: UserPreferences)

  /** The effect on load: the server's preferences replace the draft when the profile has them. */
  function Loaded(current: Draft, preferences: Option<UserPreferences>): Draft {
    match preferences
    case None => current
    case Some(p) => Draft(Finite(p.bad_threshold), Finite(p.ok_threshold), Finite(p.good_threshold))
  }

  /** A field's `onChange`: the empty input is 0, anything else is `parseFloat` of it. */
  function FieldValue(input: string, parseFloat: string -> Num): Num {
    if input == "" then Finite(0) else parseFloat(input)
  }

  datatype Field = BadField | OkField | GoodField

  /** `setPreferencesData({ ...preferencesData, field: value })`. */
  function Edit(d: Draft, field: Field, input: string, parseFloat: string -> Num): (r: Draft)
    ensures field == BadField ==> r.ok == d.ok && r.good == d.good
    ensures field == OkField ==> r.bad == d.bad && r.good == d.good
    ensures field == GoodField ==> r.bad == d.bad && r.ok == d.ok
  {
    var v := FieldValue(input, parseFloat);
    match field
    case BadField => d.(bad := v)
    case OkField => d.(ok := v)
    case GoodField => d.(good := v)
  }

  /**
   * `handlePreferencesSubmit`: NaN in any field is refused, then thresholds
   * out of ascending order; otherwise exactly one endpoint is called, the
   * update one when `profile?.preferences_configured` is true.
   */
  function Decide(d: Draft, configured: Option<bool>): (r: Decision)
    ensures r == Rejected(NotNumbersMessage) <==> d.bad.NaN? || d.ok.NaN? || d.good.NaN?
    ensures r == Rejected(OrderMessage)
        <==> d.bad.Finite? && d.ok.Finite? && d.good.Finite? && (d.bad.value > d.ok.value || d.ok.value > d.good.value)
    ensures r.Send? <==> d.bad.Finite? && d.ok.Finite? && d.good.Finite? && d.bad.value <= d.ok.value <= d.good.value
    ensures r.Send? ==> r.payload == UserPreferences(d.bad.value, d.ok.value, d.good.value)
    ensures r.Send? ==> (r.endpoint == UpdatePreferences <==> configured == Some(true))
  {
    if d.bad.NaN? || d.ok.NaN? || d.good.NaN? then Rejected(NotNumbersMessage)
    else if d.bad.value > d.ok.value || d.ok.value > d.good.value then Rejected(OrderMessage)
    else
      var payload := UserPreferences(d.bad.value, d.ok.value, d.good.value);
      if configured == Some(true) then Send(UpdatePreferences, payload) else Send(InitPreferences, payload)
  }

  /** The error banner after a submission: cleared, then the refusal or the server's failure message. */
  function ErrorAfter(r: Decision, callSucceeded: bool, failureMessage: string): (e: string)
    ensures r.Rejected? ==> e == r.message
    ensures r.Send? ==> (e == "" <==> callSucceeded || failureMessage == "")
    ensures r.Send? && !callSucceeded ==> e == failureMessage
  {
    match r
    case Rejected(message) => message
    case Send(_, _) => if callSucceeded then "" else failureMessage
  }

  // ---------------------------------------------------------------------
  // Properties

  /** The initial thresholds 0, 500 and 1500 are in order, so submitting them untouched is accepted. */
  lemma DefaultsAccepted(configured: Option<bool>)
    ensures Decide(Defaults, configured).Send?
    ensures Decide(Defaults, configured).payload == UserPreferences(0, 500, 1500)
  {
  }

  /** Equal thresholds are accepted. */
  lemma EqualAccepted(x: int, configured: Option<bool>)
    ensures Decide(Draft(Finite(x), Finite(x), Finite(x)), configured) == Send(
      if configured == Some(true) then UpdatePreferences else InitPreferences, UserPreferences(x, x, x))
  {
  }

  /** Clearing a field sets that threshold to 0 and leaves the other two. */
  lemma ClearedIsZero(d: Draft, field: Field, parseFloat: string -> Num)
    ensures var r := Edit(d, field, "", parseFloat);
      (field == BadField ==> r == d.(bad := Finite(0)))
      && (field == OkField ==> r == d.(ok := Finite(0)))
      && (field == GoodField ==> r == d.(good := Finite(0)))
  {
  }

  /** Preferences loaded from the server are sent back unchanged when they are in order. */
  lemma LoadedRoundTrip(current: Draft, p: UserPreferences, configured: Option<bool>)
    requires p.bad_threshold <= p.ok_threshold <= p.good_threshold
    ensures Decide(Loaded(current, Some(p)), configured).Send?
    ensures Decide(Loaded(current, Some(p)), configured).payload == p
  {
  }

  /** An input that does not parse leaves the form unsubmittable until it is changed. */
  lemma UnparsedRejected(d: Draft, field: Field, input: string, parseFloat: string -> Num, configured: Option<bool>)
    requires input != "" && parseFloat(input).NaN?
    ensures Decide(Edit(d, field, input, parseFloat), configured) == Rejected(NotNumbersMessage)
  {
  }
}
