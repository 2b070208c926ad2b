/** The fail-closed radio policy: which AT commands it sends, against a modem that may
    answer anything. The modem is a function of the commands it was sent so far. */
module RadioPolicy {
  import opened RadioText
  import opened Wrappers

  /** What the adapter hands back: nothing, or its buffer up to the terminator if there is one. */
  datatype Answer = Silence | Buffer(text: string)

  type Modem = seq<string> -> Answer

  const RADIO_OFF: string := "AT+CFUN=4"
  const RADIO_ON: string := "AT+CFUN=1"
  const ASK_RADIO: string := "AT+CFUN?"
  const ASK_MODE: string := "AT+CNMP?"
  const ASK_RAT: string := "AT+CMNB?"
  const ASK_BANDS: string := "AT+CBANDCFG?"
  const SET_MODE: string := "AT+CNMP=38"
  const SET_RAT: string := "AT+CMNB=1"
  const SET_BANDS: string := "AT+CBANDCFG=\"CAT-M\",3,20"

  /** An accepted answer to the last command of `log`. */
  function Reply(m: Modem, log: seq<string>): Option<string> {
    match m(log)
    case Silence => None
    case Buffer(text) => if |text| < CAPACITY && ResponseStatus(text) == Ok then Some(text) else None
  }

  predicate Accepted(m: Modem, log: seq<string>) { Reply(m, log).Some? }

  function ScalarAt(m: Modem, log: seq<string>, key: string): Option<nat> {
    var r := Reply(m, log);
    if r.None? then None else ScalarOf(r.value, key)
  }

  function BandsAt(m: Modem, log: seq<string>): Settings {
    var r := Reply(m, log);
    if r.None? then Invalid else BandsOf(r.value)
  }

  datatype Session<T> = Session(log: seq<string>, value: T)

  /** The read-back of the three settings: it stops at the first answer it cannot read. */
  function ReadSettings(m: Modem, log: seq<string>): Session<Settings> {
    var l1 := log + [ASK_MODE];
    var mode := ScalarAt(m, l1, "+CNMP");
    if mode.None? then Session(l1, Invalid)
    else
      var l2 := l1 + [ASK_RAT];
      var rat := ScalarAt(m, l2, "+CMNB");
      if rat.None? then Session(l2, Invalid)
      else
        var l3 := l2 + [ASK_BANDS];
        var bands := BandsAt(m, l3);
        if bands.Invalid? then Session(l3, Invalid)
        else Session(l3, if mode.value == 38 && rat.value == 1 && bands.Match? then Match else Mismatch)
  }

  function FailClosed(log: seq<string>): Session<bool> { Session(log + [RADIO_OFF], false) }

  function Prepare(m: Modem, log: seq<string>): Session<bool> {
    var initial := ReadSettings(m, log);
    if initial.value.Match? then Session(initial.log, true)
    else if initial.value.Invalid? then FailClosed(initial.log)
    else
      var l1 := initial.log + [RADIO_OFF];
      if !Accepted(m, l1) then FailClosed(l1)
      else
        var l2 := l1 + [ASK_RADIO];
        if ScalarAt(m, l2, "+CFUN") != Some(4) then FailClosed(l2)
        else
          var l3 := l2 + [SET_MODE];
          if !Accepted(m, l3) then FailClosed(l3)
          else
            var l4 := l3 + [SET_RAT];
            if !Accepted(m, l4) then FailClosed(l4)
            else
              var l5 := l4 + [SET_BANDS];
              if !Accepted(m, l5) then FailClosed(l5)
              else
                var again := ReadSettings(m, l5);
                if again.value.Match? then Session(again.log, true) else FailClosed(again.log)
  }

  function Resume(m: Modem, log: seq<string>): Session<bool> {
    var settings := ReadSettings(m, log);
    if !settings.value.Match? then FailClosed(settings.log)
    else
      var l1 := settings.log + [ASK_RADIO];
      var radio := ScalarAt(m, l1, "+CFUN");
      if radio.None? then FailClosed(l1)
      else if radio.value == 1 then Session(l1, true)
      else if radio.value != 4 then FailClosed(l1)
      else
        var l2 := l1 + [RADIO_ON];
        if !Accepted(m, l2) then FailClosed(l2)
        else
          var l3 := l2 + [ASK_RADIO];
          if ScalarAt(m, l3, "+CFUN") == Some(1) then Session(l3, true) else FailClosed(l3)
  }

  /** The policy as the firmware runs it, with the commands it has sent. */
  class Radio {
    const modem: Modem
    var log: seq<string>

    constructor (modem: Modem)
      ensures this.modem == modem && log == []
    {
      this.modem, log := modem, [];
    }

    method Exchange(command: string) returns (reply: Option<string>)
      modifies this
      ensures log == old(log) + [command] && reply == Reply(modem, log)
    {
      log := log + [command];
      var answer := modem(log);
      if answer.Silence? { return None; }
      if |answer.text| >= CAPACITY { return None; }
      var status := Classify(answer.text);
      return if status == Ok then Some(answer.text) else None;
    }

    method CommandOk(command: string) returns (ok: bool)
      modifies this
      ensures log == old(log) + [command] && ok == Accepted(modem, log)
    {
      var reply := Exchange(command);
      ok := reply.Some?;
    }

    method ReadScalar(command: string, key: string) returns (value: Option<nat>)
      modifies this
      ensures log == old(log) + [command] && value == ScalarAt(modem, log, key)
    {
      var reply := Exchange(command);
      if reply.None? { return None; }
      value := ReadScalarText(reply.value, key);
    }

    method ReadBands() returns (result: Settings)
      modifies this
      ensures log == old(log) + [ASK_BANDS] && result == BandsAt(modem, log)
    {
      var reply := Exchange(ASK_BANDS);
      if reply.None? { return Invalid; }
      result := ReadBandsText(reply.value);
    }

    method ReadBack() returns (result: Settings)
      modifies this
      ensures Session(log, result) == ReadSettings(modem, old(log))
    {
      var network := ReadScalar(ASK_MODE, "+CNMP");
      if network.None? { return Invalid; }
      var preference := ReadScalar(ASK_RAT, "+CMNB");
      if preference.None? { return Invalid; }
      var bands := ReadBands();
      if bands == Invalid { return Invalid; }
      return if network.value == 38 && preference.value == 1 && bands == Match then Match else Mismatch;
    }

    method Close() returns (ok: bool)
      modifies this
      ensures Session(log, ok) == FailClosed(old(log))
    {
      var _ := CommandOk(RADIO_OFF);
      return false;
    }

    method PrepareRadio() returns (ok: bool)
      modifies this
      ensures Session(log, ok) == Prepare(modem, old(log))
    {
      var initial := ReadBack();
      if initial == Match { return true; }
      if initial == Mismatch {
        ok := CommandOk(RADIO_OFF);
        if ok {
          var functionality := ReadScalar(ASK_RADIO, "+CFUN");
          ok := functionality == Some(4);
        }
        if ok { ok := CommandOk(SET_MODE); }
        if ok { ok := CommandOk(SET_RAT); }
        if ok { ok := CommandOk(SET_BANDS); }
        if ok {
          var again := ReadBack();
          if again == Match { return true; }
        }
      }
      ok := Close();
    }

    method ResumeRadio() returns (ok: bool)
      modifies this
      ensures Session(log, ok) == Resume(modem, old(log))
    {
      var settings := ReadBack();
      if settings == Match {
        var functionality := ReadScalar(ASK_RADIO, "+CFUN");
        if functionality == Some(1) { return true; }
        if functionality == Some(4) {
          ok := CommandOk(RADIO_ON);
          if ok {
            functionality := ReadScalar(ASK_RADIO, "+CFUN");
            if functionality == Some(1) { return true; }
          }
        }
      }
      ok := Close();
    }
  }

  // What the policy guarantees against any modem.

  /** The three settings were read back as wanted, the last answer being to the whole log. */
  predicate ReadBackMatches(m: Modem, log: seq<string>) {
    && |log| >= 3
    && log[|log| - 3..] == [ASK_MODE, ASK_RAT, ASK_BANDS]
    && ScalarAt(m, log[..|log| - 2], "+CNMP") == Some(38)
    && ScalarAt(m, log[..|log| - 1], "+CMNB") == Some(1)
    && BandsAt(m, log) == Match
  }

  /** What was sent since `before` never switched the radio on. */
  predicate Quiet(before: seq<string>, after: seq<string>) {
    before <= after && forall i :: |before| <= i < |after| ==> after[i] != RADIO_ON
  }

  lemma QuietStep(before: seq<string>, after: seq<string>, command: string)
    requires Quiet(before, after) && command != RADIO_ON
    ensures Quiet(before, after + [command])
  {
  }

  lemma QuietSettings(m: Modem, before: seq<string>, log: seq<string>)
    requires Quiet(before, log)
    ensures Quiet(before, ReadSettings(m, log).log) && log <= ReadSettings(m, log).log
  {
    QuietStep(before, log, ASK_MODE);
    QuietStep(before, log + [ASK_MODE], ASK_RAT);
    QuietStep(before, log + [ASK_MODE] + [ASK_RAT], ASK_BANDS);
  }

  lemma SettingsMatch(m: Modem, log: seq<string>)
    requires ReadSettings(m, log).value.Match?
    ensures var s := ReadSettings(m, log); ReadBackMatches(m, s.log) && s.log == log + [ASK_MODE, ASK_RAT, ASK_BANDS]
  {
    var s := ReadSettings(m, log);
    assert s.log == log + [ASK_MODE, ASK_RAT, ASK_BANDS];
    assert s.log[..|s.log| - 2] == log + [ASK_MODE];
    assert s.log[..|s.log| - 1] == log + [ASK_MODE] + [ASK_RAT];
  }

  /** Then the last answer is a text that shows bands 3 and 20 and nothing else. */
  lemma ReadBackShows(m: Modem, log: seq<string>)
    requires ReadBackMatches(m, log)
    ensures Reply(m, log).Some? && ShowsWanted(Reply(m, log).value)
  {
    MatchExactly(Reply(m, log).value);
  }

  /** What preparing must come to, whatever the modem answered. */
  predicate Closed(m: Modem, before: seq<string>, s: Session<bool>) {
    && Quiet(before, s.log) && |before| < |s.log|
    && (!s.value ==> s.log[|s.log| - 1] == RADIO_OFF)
    && (s.value ==> ReadBackMatches(m, s.log))
  }

  lemma FailureCloses(m: Modem, before: seq<string>, log: seq<string>)
    requires Quiet(before, log)
    ensures Closed(m, before, FailClosed(log))
  {
    QuietStep(before, log, RADIO_OFF);
  }

  lemma SuccessCloses(m: Modem, before: seq<string>, log: seq<string>)
    requires Quiet(before, log)
    ensures var s := ReadSettings(m, log); s.value.Match? ==> Closed(m, before, Session(s.log, true))
  {
    QuietSettings(m, before, log);
    if ReadSettings(m, log).value.Match? { SettingsMatch(m, log); }
  }

  /** Preparing never switches the radio on; when it fails, the last thing it does is switch it
      off; when it succeeds, its last three answers are the wanted settings. */
  lemma PrepareFailsClosed(m: Modem, log: seq<string>)
    ensures Closed(m, log, Prepare(m, log))
  {
    var initial := ReadSettings(m, log);
    QuietSettings(m, log, log);
    SuccessCloses(m, log, log);
    var l1 := initial.log + [RADIO_OFF];
    var l2 := l1 + [ASK_RADIO];
    var l3 := l2 + [SET_MODE];
    var l4 := l3 + [SET_RAT];
    var l5 := l4 + [SET_BANDS];
    QuietStep(log, initial.log, RADIO_OFF);
    QuietStep(log, l1, ASK_RADIO);
    QuietStep(log, l2, SET_MODE);
    QuietStep(log, l3, SET_RAT);
    QuietStep(log, l4, SET_BANDS);
    QuietSettings(m, log, l5);
    SuccessCloses(m, log, l5);
    FailureCloses(m, log, initial.log);
    FailureCloses(m, log, l1);
    FailureCloses(m, log, l2);
    FailureCloses(m, log, l3);
    FailureCloses(m, log, l4);
    FailureCloses(m, log, l5);
    FailureCloses(m, log, ReadSettings(m, l5).log);
  }

  /** The radio is on: the last answer says so, and the settings matched just before, with at
      most the command to switch it on in between. */
  predicate OnAsWanted(m: Modem, log: seq<string>) {
    && log != [] && log[|log| - 1] == ASK_RADIO && ScalarAt(m, log, "+CFUN") == Some(1)
    && (ReadBackMatches(m, log[..|log| - 1])
        || (|log| >= 3 && log[|log| - 3] == ASK_RADIO && ScalarAt(m, log[..|log| - 2], "+CFUN") == Some(4)
            && log[|log| - 2] == RADIO_ON && Accepted(m, log[..|log| - 1])
            && ReadBackMatches(m, log[..|log| - 3])))
  }

  /** The radio is switched on only behind matching settings and a radio read as off. */
  predicate OnOnlyWhenSafe(m: Modem, before: seq<string>, after: seq<string>) {
    forall i :: |before| <= i < |after| && after[i] == RADIO_ON ==>
      i >= 1 && ReadBackMatches(m, after[..i - 1]) && ScalarAt(m, after[..i], "+CFUN") == Some(4)
  }

  predicate Resumed(m: Modem, before: seq<string>, s: Session<bool>) {
    && before <= s.log && |before| < |s.log|
    && (!s.value ==> s.log[|s.log| - 1] == RADIO_OFF)
    && (s.value ==> OnAsWanted(m, s.log))
    && OnOnlyWhenSafe(m, before, s.log)
  }

  lemma QuietIsSafe(m: Modem, before: seq<string>, after: seq<string>)
    requires Quiet(before, after)
    ensures OnOnlyWhenSafe(m, before, after)
  {
  }

  lemma SwitchedOnSafely(m: Modem, before: seq<string>, l0: seq<string>, tail: seq<string>)
    requires Quiet(before, l0) && ReadBackMatches(m, l0) && ScalarAt(m, l0 + [ASK_RADIO], "+CFUN") == Some(4)
    requires forall i :: 0 <= i < |tail| ==> tail[i] != RADIO_ON
    ensures OnOnlyWhenSafe(m, before, l0 + [ASK_RADIO] + [RADIO_ON] + tail)
  {
    var l1 := l0 + [ASK_RADIO];
    var after := l1 + [RADIO_ON] + tail;
    assert after[..|l1|] == l1 && after[..|l0|] == l0;
    assert forall k :: |before| <= k < |l0| ==> after[k] == l0[k];
    forall i | |before| <= i < |after| && after[i] == RADIO_ON
      ensures i >= 1 && ReadBackMatches(m, after[..i - 1]) && ScalarAt(m, after[..i], "+CFUN") == Some(4)
    {
      assert i == |l1|;
    }
  }

  lemma ResumeOn(m: Modem, before: seq<string>, l0: seq<string>)
    requires Quiet(before, l0) && ReadBackMatches(m, l0) && ScalarAt(m, l0 + [ASK_RADIO], "+CFUN") == Some(4)
    ensures var l2 := l0 + [ASK_RADIO] + [RADIO_ON];
            var l3 := l2 + [ASK_RADIO];
            && Resumed(m, before, FailClosed(l2)) && Resumed(m, before, FailClosed(l3))
            && (Accepted(m, l2) && ScalarAt(m, l3, "+CFUN") == Some(1) ==> Resumed(m, before, Session(l3, true)))
  {
    var l1 := l0 + [ASK_RADIO];
    var l2 := l1 + [RADIO_ON];
    var l3 := l2 + [ASK_RADIO];
    SwitchedOnSafely(m, before, l0, [RADIO_OFF]);
    SwitchedOnSafely(m, before, l0, [ASK_RADIO]);
    SwitchedOnSafely(m, before, l0, [ASK_RADIO, RADIO_OFF]);
    assert l3 + [RADIO_OFF] == l2 + [ASK_RADIO, RADIO_OFF];
    assert l3[..|l3| - 1] == l2 && l3[..|l3| - 2] == l1 && l3[..|l3| - 3] == l0;
  }

  lemma ResumeEarly(m: Modem, before: seq<string>, log: seq<string>)
    requires Quiet(before, log)
    ensures Resumed(m, before, FailClosed(log))
  {
    QuietStep(before, log, RADIO_OFF);
    QuietIsSafe(m, before, log + [RADIO_OFF]);
  }

  lemma ResumeAlreadyOn(m: Modem, before: seq<string>, l0: seq<string>)
    requires Quiet(before, l0) && ReadBackMatches(m, l0) && ScalarAt(m, l0 + [ASK_RADIO], "+CFUN") == Some(1)
    ensures Resumed(m, before, Session(l0 + [ASK_RADIO], true))
  {
    QuietStep(before, l0, ASK_RADIO);
    QuietIsSafe(m, before, l0 + [ASK_RADIO]);
    assert (l0 + [ASK_RADIO])[..|l0|] == l0;
  }

  /** Resuming fails closed too, and succeeds only with settings re-read as wanted and the
      radio read back as on. */
  lemma ResumeFailsClosed(m: Modem, log: seq<string>)
    ensures Resumed(m, log, Resume(m, log))
  {
    QuietSettings(m, log, log);
    var settings := ReadSettings(m, log);
    var l0 := settings.log;
    if !settings.value.Match? {
      ResumeEarly(m, log, l0);
    } else {
      SettingsMatch(m, log);
      QuietStep(log, l0, ASK_RADIO);
      var radio := ScalarAt(m, l0 + [ASK_RADIO], "+CFUN");
      if radio == Some(1) { ResumeAlreadyOn(m, log, l0); }
      else if radio == Some(4) { ResumeOn(m, log, l0); }
      else { ResumeEarly(m, log, l0 + [ASK_RADIO]); }
    }
  }
}
