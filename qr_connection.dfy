/**
 * The WhatsApp pairing dialog. Its three state cells (`status`, `countdown`,
 * `qrCode`) are fields of a class, and each asynchronous callback of the
 * component is a method: the pairing request and its response, the one-second
 * countdown tick, the three-second status poll and the 120-second polling
 * ceiling. Which timers are pending is kept in fields too, so that an event
 * whose timer is not scheduled changes nothing.
 */
module QRConnection {
  import opened Wrappers
  import Text

  datatype Status = Loading | QrReady | Connecting | Connected | Error

  /** `useState(120)`: two minutes. */
  const CountdownStart: int := 120

  /** The body of the pairing request, or a failed request (`fetch` or `json` threw). */
  datatype PairingResponse = PairingFailed | PairingBody(qrCode: Option<string>)

  /** The body of one status poll, or a failed poll. */
  datatype PollResult = PollFailed | PollBody(status: string)

  /** `if (data.qrCode)`: a present, non-empty code. */
  predicate HasQrCode(response: PairingResponse) {
    response.PairingBody? && response.qrCode.Some? && response.qrCode.value != ""
  }

  /** `formatTime(seconds)`: whole minutes, ":", and the seconds padded to two digits. */
  function FormatTime(seconds: nat): string {
    Text.NatToString(seconds / 60) + ":" + Text.Pad2(seconds % 60)
  }

  /** The label reads back as minutes and seconds that add up to the input. */
  lemma FormatTimeReadsBack(seconds: nat)
    ensures var r := FormatTime(seconds);
            && |r| >= 4 && r[|r| - 3] == ':'
            && (forall i :: 0 <= i < |r| && i != |r| - 3 ==> Text.IsDigit(r[i]))
            && Text.ParseNat(r[..|r| - 3]) * 60 + Text.ParseNat(r[|r| - 2..]) == seconds
            && Text.ParseNat(r[|r| - 2..]) < 60
  {
    var m := Text.NatToString(seconds / 60);
    var p := Text.Pad2(seconds % 60);
    var r := FormatTime(seconds);
    assert r == m + ":" + p;
    assert r[..|r| - 3] == m;
    assert r[|r| - 2..] == p;
    Text.ParseNatOfNatToString(seconds / 60);
  }

  lemma FormatTimeExamples()
    ensures FormatTime(120) == "2:00"
    ensures FormatTime(59) == "0:59"
  {
    assert Text.NatToString(59) == Text.NatToString(5) + [Text.DigitChar(9)] == "59";
  }

  /** A pending 120-second ceiling: the poll interval it clears and the `status` value it
      compares with "connected", as the render that started its pairing saw it. */
  datatype PendingCeiling = PendingCeiling(poll: nat, captured: Status)

  /** The poll intervals that pending ceilings will clear. */
  function PollsOf(cs: seq<PendingCeiling>): set<nat> {
    set i | 0 <= i < |cs| :: cs[i].poll
  }

  /** Every ceiling waits the same 120 seconds, so the pending ones fire in the order they
      were scheduled, which is the order of the intervals they belong to. */
  predicate InScheduleOrder(cs: seq<PendingCeiling>, started: nat) {
    && (forall i, j :: 0 <= i < j < |cs| ==> cs[i].poll < cs[j].poll)
    && (forall i :: 0 <= i < |cs| ==> cs[i].poll < started)
  }

  lemma PollsOfSnoc(cs: seq<PendingCeiling>, c: PendingCeiling)
    ensures PollsOf(cs + [c]) == PollsOf(cs) + {c.poll}
  {
    var ds := cs + [c];
    assert forall i :: 0 <= i < |cs| ==> ds[i] == cs[i];
    assert ds[|cs|] == c;
  }

  /** Firing the first ceiling leaves the intervals of the others, none of which is its own. */
  lemma PollsOfTail(cs: seq<PendingCeiling>, started: nat)
    requires |cs| > 0 && InScheduleOrder(cs, started)
    ensures InScheduleOrder(cs[1..], started)
    ensures PollsOf(cs[1..]) == PollsOf(cs) - {cs[0].poll}
  {
    var ds := cs[1..];
    assert forall i :: 0 <= i < |ds| ==> ds[i] == cs[i + 1];
    forall p | p in PollsOf(cs) - {cs[0].poll}
      ensures p in PollsOf(ds)
    {
      var i :| 0 <= i < |cs| && cs[i].poll == p;
      assert i != 0;
      assert ds[i - 1].poll == p;
    }
  }

  class QRConnectionModal {
    var status: Status
    var countdown: int
    var qrCode: Option<string>
    /** The pairing request has been sent and its response has not arrived. */
    var pairingInFlight: bool
    /** `status` as the render that started the pending request saw it. */
    var requestStatus: Status
    /** The three-second poll intervals that have not been cleared, by number. */
    var activePolls: set<nat>
    /** How many poll intervals `startPolling` has created; the next one gets this number. */
    var pollsStarted: nat
    /** The 120-second ceilings that have not fired yet, in firing order. */
    var ceilings: seq<PendingCeiling>
    /** `onClose` has been scheduled after a successful connection. */
    var closeScheduled: bool

    /** The countdown stays within 0..120, no callback ever produces `connecting`,
        `qr-ready` always comes with a code to show, and every running poll interval
        still has its ceiling pending, so none outlives its two minutes. */
    ghost predicate Valid()
      reads this
    {
      && 0 <= countdown <= CountdownStart
      && status != Connecting
      && (status == QrReady ==> qrCode.Some? && qrCode.value != "")
      && InScheduleOrder(ceilings, pollsStarted)
      && activePolls <= PollsOf(ceilings)
    }

    /** The initial state cells. */
    constructor ()
      ensures Valid()
      ensures status == Loading && countdown == CountdownStart && qrCode == None
      ensures !pairingInFlight && requestStatus == Loading && !closeScheduled
      ensures activePolls == {} && pollsStarted == 0 && ceilings == []
    {
      status := Loading;
      countdown := CountdownStart;
      qrCode := None;
      pairingInFlight := false;
      requestStatus := Loading;
      activePolls := {};
      pollsStarted := 0;
      ceilings := [];
      closeScheduled := false;
    }

    /** The countdown interval runs only while the code is shown and time remains. */
    predicate TickScheduled()
      reads this
    {
      status == QrReady && countdown > 0
    }

    /** The effect on `[isOpen, instanceId]`: opening with an instance starts a pairing. */
    method OpenChanged(isOpen: bool, instanceId: string)
      requires Valid()
      modifies this`status, this`countdown, this`pairingInFlight, this`requestStatus
      ensures Valid()
      ensures isOpen && instanceId != "" ==>
                status == Loading && countdown == CountdownStart && pairingInFlight
                && requestStatus == old(status)
      ensures !(isOpen && instanceId != "") ==> unchanged(this)
      ensures qrCode == old(qrCode) && activePolls == old(activePolls)
      ensures ceilings == old(ceilings) && closeScheduled == old(closeScheduled)
    {
      if isOpen && instanceId != "" {
        StartReconnection();
      }
    }

    /** `startReconnection` up to its request: `loading`, a full countdown, a request in flight.
        It does not clear a previous code, and it stops no timer: the intervals and ceilings of
        earlier pairings stay pending. */
    method StartReconnection()
      requires Valid()
      modifies this`status, this`countdown, this`pairingInFlight, this`requestStatus
      ensures Valid()
      ensures status == Loading && countdown == CountdownStart
      ensures pairingInFlight && requestStatus == old(status)
      ensures qrCode == old(qrCode) && activePolls == old(activePolls)
      ensures ceilings == old(ceilings) && closeScheduled == old(closeScheduled)
    {
      requestStatus := status;
      status := Loading;
      countdown := CountdownStart;
      pairingInFlight := true;
    }

    /** The "try again" button, shown only in `error`: a fresh pairing from a full countdown. */
    method Retry()
      requires Valid() && status == Error
      modifies this`status, this`countdown, this`pairingInFlight, this`requestStatus
      ensures Valid()
      ensures status == Loading && countdown == CountdownStart && pairingInFlight
      ensures requestStatus == Error && qrCode == old(qrCode) && activePolls == old(activePolls)
      ensures ceilings == old(ceilings) && closeScheduled == old(closeScheduled)
    {
      StartReconnection();
    }

    /** The rest of `startReconnection`: a code gives `qr-ready` and starts a poll interval
        and its ceiling; no code, or a failed request, gives `error` and starts nothing. */
    method OnPairingResponse(response: PairingResponse)
      requires Valid() && pairingInFlight
      modifies this`pairingInFlight, this`qrCode, this`status,
               this`activePolls, this`pollsStarted, this`ceilings
      ensures Valid()
      ensures !pairingInFlight && countdown == old(countdown)
      ensures HasQrCode(response) ==>
                && status == QrReady && qrCode == response.qrCode
                && activePolls == old(activePolls) + {old(pollsStarted)}
                && pollsStarted == old(pollsStarted) + 1
                && ceilings == old(ceilings) + [PendingCeiling(old(pollsStarted), old(requestStatus))]
      ensures !HasQrCode(response) ==>
                && status == Error && qrCode == old(qrCode)
                && activePolls == old(activePolls) && pollsStarted == old(pollsStarted)
                && ceilings == old(ceilings)
      ensures requestStatus == old(requestStatus) && closeScheduled == old(closeScheduled)
    {
      pairingInFlight := false;
      if HasQrCode(response) {
        qrCode := response.qrCode;
        status := QrReady;
        StartPolling();
      } else {
        status := Error;
      }
    }

    /** `startPolling`: creates a new poll interval and a new ceiling for it; the ceiling
        tests the status seen by the render that started the request. Earlier ones stay. */
    method StartPolling()
      requires Valid()
      modifies this`activePolls, this`pollsStarted, this`ceilings
      ensures Valid()
      ensures pollsStarted == old(pollsStarted) + 1
      ensures activePolls == old(activePolls) + {old(pollsStarted)}
      ensures ceilings == old(ceilings) + [PendingCeiling(old(pollsStarted), requestStatus)]
    {
      PollsOfSnoc(ceilings, PendingCeiling(pollsStarted, requestStatus));
      activePolls := activePolls + {pollsStarted};
      ceilings := ceilings + [PendingCeiling(pollsStarted, requestStatus)];
      pollsStarted := pollsStarted + 1;
    }

    /** One second of the countdown: from more than one it counts down, from one it
        reaches zero and the code expires. Nothing happens while the interval is off. */
    method Tick()
      requires Valid()
      modifies this`countdown, this`status
      ensures Valid()
      ensures old(TickScheduled()) && old(countdown) > 1 ==>
                countdown == old(countdown) - 1 && status == QrReady
      ensures old(TickScheduled()) && old(countdown) <= 1 ==> countdown == 0 && status == Error
      ensures !old(TickScheduled()) ==> countdown == old(countdown) && status == old(status)
    {
      if TickScheduled() {
        if countdown <= 1 {
          status := Error;
          countdown := 0;
        } else {
          countdown := countdown - 1;
        }
      }
    }

    /** One run of poll interval `poll`: "connected" wins, clears that interval and schedules
        `onClose`; any other answer, a failed poll, or an interval already cleared changes
        nothing. The poll does not look at `status`, and other intervals keep running. */
    method Poll(poll: nat, result: PollResult)
      requires Valid()
      modifies this`status, this`activePolls, this`closeScheduled
      ensures Valid()
      ensures poll in old(activePolls) && result == PollBody("connected") ==>
                status == Connected && activePolls == old(activePolls) - {poll} && closeScheduled
      ensures !(poll in old(activePolls) && result == PollBody("connected")) ==>
                status == old(status) && activePolls == old(activePolls)
                && closeScheduled == old(closeScheduled)
    {
      if poll in activePolls && result == PollBody("connected") {
        status := Connected;
        activePolls := activePolls - {poll};
        closeScheduled := true;
      }
    }

    /** The earliest pending ceiling fires: it clears its own poll interval only and, unless
        the status it captured was "connected", reports `error`, whatever the current status
        is. With no ceiling pending no interval runs either. */
    method Ceiling()
      requires Valid()
      modifies this`status, this`activePolls, this`ceilings
      ensures Valid()
      ensures old(ceilings) == [] ==>
                status == old(status) && activePolls == {} && ceilings == []
      ensures old(ceilings) != [] ==>
                && ceilings == old(ceilings)[1..]
                && activePolls == old(activePolls) - {old(ceilings)[0].poll}
                && status == (if old(ceilings)[0].captured == Connected then old(status) else Error)
    {
      if ceilings != [] {
        var first := ceilings[0];
        PollsOfTail(ceilings, pollsStarted);
        ceilings := ceilings[1..];
        activePolls := activePolls - {first.poll};
        if first.captured != Connected {
          status := Error;
        }
      }
    }
  }

  /** A code nobody scans. The ceiling is scheduled in the same step that shows the code and
      each countdown tick is scheduled a second after the previous one has been rendered, so
      the ceiling always fires before the 120th tick: after at most 119 ticks, and after
      exactly 119 (with "0:01" on screen) when the browser does not throttle its timers. This
      run is that unthrottled one: the ceiling reports `error`, clears the poll, and the
      countdown stops there. */
  method ExpiryScenario(code: string) returns (last: Status, ticks: nat, left: int)
    requires code != ""
    ensures last == Error && ticks == 119 && left == 1
  {
    var modal := new QRConnectionModal();
    modal.StartReconnection();
    modal.OnPairingResponse(PairingBody(Some(code)));
    ticks := 0;
    while ticks < CountdownStart - 1
      invariant modal.Valid()
      invariant modal.status == QrReady && modal.countdown == CountdownStart - ticks
      invariant modal.ceilings == [PendingCeiling(0, Loading)]
      invariant ticks <= CountdownStart - 1
    {
      modal.Tick();
      ticks := ticks + 1;
    }
    modal.Ceiling();
    modal.Tick();
    last := modal.status;
    left := modal.countdown;
  }

  /** If the ticks did run out before the ceiling, the countdown alone would expire the
      code after exactly 120 of them. */
  method CountdownRunsOutScenario(code: string) returns (last: Status, ticks: nat)
    requires code != ""
    ensures last == Error && ticks == 120
  {
    var modal := new QRConnectionModal();
    modal.StartReconnection();
    modal.OnPairingResponse(PairingBody(Some(code)));
    ticks := 0;
    while modal.TickScheduled()
      invariant modal.Valid()
      invariant modal.status == QrReady ==> modal.countdown == CountdownStart - ticks >= 1
      invariant modal.status != QrReady ==> modal.status == Error && ticks == 120
      invariant ticks <= 120
      decreases modal.countdown + (if modal.status == QrReady then 1 else 0)
    {
      modal.Tick();
      ticks := ticks + 1;
    }
    last := modal.status;
  }

  /** A scan confirmed by a poll before expiry connects; a late ceiling still reports
      `error` because the status it reads was captured before the connection. */
  method ConnectThenCeilingScenario(code: string) returns (connected: Status, afterCeiling: Status)
    requires code != ""
    ensures connected == Connected && afterCeiling == Error
  {
    var modal := new QRConnectionModal();
    modal.StartReconnection();
    modal.OnPairingResponse(PairingBody(Some(code)));
    modal.Tick();
    modal.Poll(0, PollBody("disconnected"));
    modal.Poll(0, PollBody("connected"));
    connected := modal.status;
    modal.Ceiling();
    afterCeiling := modal.status;
  }

  /** Two pairings within two minutes. The first connects; the dialog is reopened for a
      second instance, which shows its code. The first pairing's ceiling then fires: it
      reports `error` and clears only its own interval, so the second keeps polling, its
      "connected" answer connects, and its own ceiling, which captured `connected`,
      leaves that alone. */
  method OverlappingPairingsScenario(first: string, second: string)
      returns (afterFirstCeiling: Status, stillPolling: bool, afterLatePoll: Status, afterSecondCeiling: Status)
    requires first != "" && second != ""
    ensures afterFirstCeiling == Error && stillPolling
    ensures afterLatePoll == Connected && afterSecondCeiling == Connected
  {
    var modal := new QRConnectionModal();
    modal.OpenChanged(true, "A");
    modal.OnPairingResponse(PairingBody(Some(first)));
    assert modal.activePolls == {0} && modal.pollsStarted == 1;
    modal.Poll(0, PollBody("connected"));
    assert modal.status == Connected && modal.activePolls == {};
    modal.OpenChanged(false, "A");
    modal.OpenChanged(true, "B");
    assert modal.requestStatus == Connected;
    modal.OnPairingResponse(PairingBody(Some(second)));
    assert modal.activePolls == {1};
    assert modal.ceilings == [PendingCeiling(0, Loading), PendingCeiling(1, Connected)];
    modal.Ceiling();
    afterFirstCeiling := modal.status;
    stillPolling := 1 in modal.activePolls;
    modal.Poll(1, PollBody("connected"));
    afterLatePoll := modal.status;
    modal.Ceiling();
    afterSecondCeiling := modal.status;
  }
}
