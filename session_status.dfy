/**
 * The session status panel of the client: the badge and description for the session's status,
 * the "this may take a while" notice, both travel times, and the stored warning.
 */
module SessionStatus {
  import opened Wrappers
  import opened Text
  import opened Models
  import Compute

  /** `Math.round(seconds / 60)`: the nearest whole number of minutes, a half rounding up. */
  function RoundedMinutes(seconds: int): (m: int)
    ensures 60 * m - 30 <= seconds < 60 * m + 30
  {
    (seconds + 30) / 60
  }

  /** The rounding is the only whole number of minutes within half a minute of `seconds`. */
  lemma RoundedMinutesUnique(seconds: int, m: int)
    requires 60 * m - 30 <= seconds < 60 * m + 30
    ensures m == RoundedMinutes(seconds)
  {
    var r := RoundedMinutes(seconds);
    assert 60 * (m - r) < 60 && 60 * (r - m) < 60;
  }

  const UnderAMinute: string := "< 1 min walk"
  const MinWalk: string := " min walk"

  /** `formatTime`: under half a minute reads "< 1 min walk", anything else its rounded minutes. */
  function FormatTime(seconds: int): (r: string)
    ensures r == UnderAMinute <==> seconds < 30
    ensures seconds >= 30 ==> |r| > |MinWalk| && r[|r| - |MinWalk|..] == MinWalk
  {
    var minutes := RoundedMinutes(seconds);
    if minutes < 1 then UnderAMinute
    else
      var r := NatToString(minutes) + MinWalk;
      assert r[0] != UnderAMinute[0];
      r
  }

  /** From half a minute on, the digits in front of " min walk" read back as the rounded minutes. */
  lemma FormatTimeMinutes(seconds: int)
    requires seconds >= 30
    ensures var r := FormatTime(seconds);
      var digits := r[..|r| - |MinWalk|];
      && (forall i :: 0 <= i < |digits| ==> IsDigit(digits[i]))
      && RoundedMinutes(seconds) >= 1
      && DigitsValue(digits) == RoundedMinutes(seconds)
  {
    var m := RoundedMinutes(seconds);
    var r := FormatTime(seconds);
    assert r == NatToString(m) + MinWalk;
    assert r[..|r| - |MinWalk|] == NatToString(m);
    NatToStringRoundTrip(m);
  }

  /** The badge text and colour classes and the description for one status. */
  datatype StatusConfig = StatusConfig(labelText: string, color: string, description: string)

  /** `statusConfig`, keyed by the status strings the backend writes. */
  function StatusTable(): map<string, StatusConfig> {
    map[
      "waiting_for_b" := StatusConfig("Waiting", "bg-saffron/15 text-saffron",
                                      "Waiting for your friend to drop their pin..."),
      "ready_to_compute" := StatusConfig("Ready", "bg-mint/15 text-mint",
                                         "Both locations set! Ready to find your meeting point."),
      "computing" := StatusConfig("Computing", "bg-saffron/15 text-saffron",
                                  "Finding the fairest midpoint and best venues..."),
      "voting" := StatusConfig("Vote", "bg-mint/15 text-mint", "Pick your favorite venue!"),
      "completed" := StatusConfig("Done", "bg-text-muted/15 text-text-secondary", "A winner has been chosen!")
    ]
  }

  /** The table has an entry for exactly the statuses the backend can store. */
  lemma StatusTableKeys(status: string)
    ensures status in StatusTable() <==> ParseStatus(status).Some?
  {
  }

  /** `statusConfig[status] || statusConfig.waiting_for_b`: an unknown status shows as waiting. */
  function ConfigFor(status: string): (c: StatusConfig)
    ensures ParseStatus(status).Some? ==> c == StatusTable()[status]
    ensures ParseStatus(status).None? ==> c == StatusTable()[WaitingForB.Name()]
  {
    var table := StatusTable();
    StatusTableKeys(status);
    if status in table then table[status] else table["waiting_for_b"]
  }

  /** A stored status is shown with a label of its own: no two statuses share one. */
  lemma ConfigLabelsDistinct(s: Status, t: Status)
    requires s != t
    ensures ConfigFor(s.Name()).labelText != ConfigFor(t.Name()).labelText
  {
    ParseName(s);
    ParseName(t);
  }

  /** The two travel-time lines. */
  datatype TravelTimes = TravelTimes(you: string, friend: string)

  /** What the panel shows: the config, the notice, the travel times and the warning, when present. */
  datatype StatusView = StatusView(config: StatusConfig, computingNotice: bool,
                                   travel: Option<TravelTimes>, warning: Option<string>)

  /**
   * The rendered panel. Travel times require both to be non-null (a zero time is shown); the
   * warning is shown when it is a non-empty string.
   */
  function Render(status: string, userATravelTime: Option<int>, userBTravelTime: Option<int>, warning: Option<string>)
    : (v: StatusView)
    ensures v.config == ConfigFor(status)
    ensures v.computingNotice <==> status == Computing.Name()
    ensures v.travel.Some? <==> (status == Voting.Name() || status == Completed.Name())
                                && userATravelTime.Some? && userBTravelTime.Some?
    ensures v.travel.Some? ==> v.travel.value.you == "You (A): " + FormatTime(userATravelTime.value)
                               && v.travel.value.friend == "Friend (B): " + FormatTime(userBTravelTime.value)
    ensures v.warning.Some? <==> warning.Some? && warning.value != ""
    ensures v.warning.Some? ==> v.warning == warning
  {
    StatusView(
      ConfigFor(status),
      status == "computing",
      if (status == "voting" || status == "completed") && userATravelTime.Some? && userBTravelTime.Some?
      then Some(TravelTimes("You (A): " + FormatTime(userATravelTime.value),
                            "Friend (B): " + FormatTime(userBTravelTime.value)))
      else None,
      if warning.Some? && warning.value != "" then warning else None)
  }

  /** The panel for a stored session row. */
  function RenderSession(s: SessionRecord): StatusView {
    Render(s.status.Name(), s.userATravelTime, s.userBTravelTime, s.warning)
  }

  /**
   * After a run whose midpoint solver raised, the panel reads "Vote", shows no travel times and
   * shows the fallback warning.
   */
  lemma FallbackWarningShown(before: SessionRecord, geographic: Coord, now: int)
    ensures var v := RenderSession(Compute.Completed(before, Compute.ChooseMidpoint(geographic, None), now));
      && v.config.labelText == "Vote"
      && !v.computingNotice
      && v.travel.None?
      && v.warning == Some(Compute.FallbackWarning)
  {
    var after := Compute.Completed(before, Compute.ChooseMidpoint(geographic, None), now);
    assert after.status == Voting && after.userATravelTime.None?;
    assert after.warning == Some(Compute.FallbackWarning);
    ParseName(Voting);
  }
}
