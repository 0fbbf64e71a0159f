/**
  Marketplace's publisher: a confirm channel that comes and goes, and an envelope that is tried twice. The broker
  confirms a message whether or not some binding routes it, so that every event type is routed is proved here too.
*/
module Publisher {
  import opened Wrappers
  import opened EventContract
  import opened Delivery

  // ----- The exchange

  /** The words of a routing key or of a binding, cut at the dots. */
  function Words(s: string): (r: seq<string>)
    ensures |r| > 0
  {
    if s == "" then [""]
    else
      var rest := Words(s[1..]);
      if s[0] == '.' then [""] + rest else [[s[0]] + rest[0]] + rest[1..]
  }

  /** AMQP topic matching: `*` stands for one word, `#` for any number of them. */
  predicate Matches(pattern: seq<string>, key: seq<string>)
    decreases |pattern| + |key|
  {
    if pattern == [] then key == []
    else if pattern[0] == "#" then Matches(pattern[1..], key) || (key != [] && Matches(pattern, key[1..]))
    else key != [] && (pattern[0] == "*" || pattern[0] == key[0]) && Matches(pattern[1..], key[1..])
  }

  const BINDINGS := ["proposal.*", "transaction.*"]

  predicate Routed(key: string) {
    exists b :: b in BINDINGS && Matches(Words(b), Words(key))
  }

  lemma {:induction false} OneWord(s: string)
    requires '.' !in s
    ensures Words(s) == [s]
  {
    if s != "" {
      assert s[0] in s;
      OneWord(s[1..]);
      assert [s[0]] + s[1..] == s;
    }
  }

  lemma {:induction false} TwoWords(a: string, b: string)
    requires '.' !in a && '.' !in b
    ensures Words(a + "." + b) == [a, b]
  {
    if a == "" {
      assert a + "." + b == "." + b;
      assert ("." + b)[1..] == b;
      OneWord(b);
    } else {
      assert a[0] in a;
      assert (a + "." + b)[1..] == a[1..] + "." + b;
      TwoWords(a[1..], b);
      assert [a[0]] + a[1..] == a;
      assert [a[1..], b][1..] == [b];
    }
  }

  lemma HeadDecides(head: string, a: string, b: string)
    requires head != "#" && head != "*"
    ensures Matches([head, "*"], [a, b]) <==> a == head
  {
    var pattern, key := [head, "*"], [a, b];
    assert pattern[1..] == ["*"] && key[1..] == [b];
    assert ["*"][1..] == [] && [b][1..] == [];
    assert Matches(["*"], [b]) == Matches([], []);
  }

  /** Of the keys of two words the queue gets those that begin with `proposal` or `transaction`, and no others. */
  lemma RoutedExactly(first: string, second: string)
    requires '.' !in first && '.' !in second
    ensures Routed(first + "." + second) <==> first == "proposal" || first == "transaction"
  {
    var proposal, transaction := "proposal", "transaction";
    assert proposal + "." + "*" == BINDINGS[0] && transaction + "." + "*" == BINDINGS[1];
    assert proposal[0] != '#' && proposal[0] != '*' && transaction[0] != '#' && transaction[0] != '*';
    assert '.' !in proposal && '.' !in transaction;
    hide Words, Matches;
    TwoWords(first, second);
    TwoWords(proposal, "*");
    TwoWords(transaction, "*");
    HeadDecides(proposal, first, second);
    HeadDecides(transaction, first, second);
  }

  /** Every event Marketplace builds reaches the notification queue: the exchange drops no confirmed message. */
  lemma EveryEventIsRouted(d: EventData)
    ensures Routed(TypeName(d))
  {
    hide Routed;
    var proposal, transaction := "proposal", "transaction";
    match d
    case ProposalCreated(_, _, _, _, _) => RoutedExactly(proposal, "created"); assert proposal + "." + "created" == TypeName(d);
    case ProposalRejected(_, _, _, _) => RoutedExactly(proposal, "rejected"); assert proposal + "." + "rejected" == TypeName(d);
    case ProposalAccepted(_, _, _, _, _, _) => RoutedExactly(proposal, "accepted"); assert proposal + "." + "accepted" == TypeName(d);
    case TransactionCompleted(_, _, _, _, _, _) => RoutedExactly(transaction, "completed"); assert transaction + "." + "completed" == TypeName(d);
  }

  class Broker {
    /** The notification queue; other publishers and consumers are not part of this class. */
    var queue: seq<Message>

    method Publish(key: string, m: Message)
      modifies this
      ensures queue == if Routed(key) then old(queue) + [m] else old(queue)
    {
      if Routed(key) {
        queue := queue + [m];
      }
    }
  }

  // ----- The publisher

  /** What the connection, its channels and the pending rebuild report, in any order. */
  datatype Signal =
    | Disconnected | ConnectFailed | ReconnectFailed | BlockedByBroker | Unblocked
    | ChannelError(ch: nat) | ChannelClosed(ch: nat) | Recovered(ch: nat) | RebuildDone(channel: Option<nat>)

  /** What becomes of a message handed to an open channel. */
  datatype Transport = ThrowsOnPublish | Unconfirmed(reached: bool) | Confirmed

  /** One attempt: the signals seen while waiting to be ready, the fate of the message, the signals seen meanwhile. */
  datatype Attempt = Attempt(waiting: seq<Signal>, transport: Transport, meanwhile: seq<Signal>)

  function Copies(m: Message, n: nat): seq<Message> {
    seq(n, i => m)
  }

  lemma CopiesCount(sent: seq<Message>, m: Message, n: nat)
    ensures |Copies(m, n)| == n && sent + Copies(m, 0) == sent
    ensures sent + Copies(m, n) + [m] == sent + Copies(m, n + 1)
  {
  }

  // ----- What the handlers make of the link to the broker

  datatype Link = Link(channel: Option<nat>, started: bool, connected: bool, rebuilding: bool, ready: bool, blocked: bool, stopping: bool)

  function Started(s: Link): Link {
    s.(started := true, connected := s.connected || !s.started)
  }

  function Scheduled(s: Link): Link {
    s.(rebuilding := s.rebuilding || !(s.stopping || s.blocked || !s.connected))
  }

  function Installed(s: Link, ch: nat): Link {
    s.(channel := Some(ch), ready := !s.blocked)
  }

  function Invalidated(s: Link, used: Option<nat>): Link {
    Scheduled(s.(ready := false, channel := if s.channel == used then None else s.channel))
  }

  function React(s: Link, signal: Signal): Link {
    match signal
    case Disconnected => s.(ready := false, channel := None)
    case ConnectFailed => s.(ready := false)
    case ReconnectFailed => s.(ready := false)
    case BlockedByBroker => s.(blocked := true, ready := false)
    case Unblocked =>
      if s.channel.Some? then s.(blocked := false, ready := true) else Scheduled(s.(blocked := false))
    case ChannelError(ch) => if s.channel == Some(ch) then s.(ready := false) else s
    case ChannelClosed(ch) => if s.channel == Some(ch) then Scheduled(s.(channel := None, ready := false)) else s
    case Recovered(ch) => Installed(s, ch)
    case RebuildDone(ch) =>
      if !s.rebuilding then s
      else if ch.Some? then Installed(s, ch.value).(rebuilding := false)
      else s.(ready := false, rebuilding := false)
  }

  function ReactAll(s: Link, signals: seq<Signal>): Link {
    if signals == [] then s else React(ReactAll(s, signals[..|signals| - 1]), signals[|signals| - 1])
  }

  /** The link when the wait ends: it reacts to one signal after the other until it is ready. */
  function Waited(s: Link, signals: seq<Signal>): Link
    decreases |signals|
  {
    if s.ready || signals == [] then s else Waited(React(s, signals[0]), signals[1..])
  }

  lemma {:induction false} ReactFirst(s: Link, signals: seq<Signal>)
    requires signals != []
    ensures ReactAll(s, signals) == ReactAll(React(s, signals[0]), signals[1..])
  {
    var last := |signals| - 1;
    if last == 0 {
      assert signals[..last] == [] && signals[1..] == [];
    } else {
      ReactFirst(s, signals[..last]);
      assert signals[..last][1..] == signals[1..][..last - 1];
    }
  }

  /**
    A wait succeeds exactly when the link is ready at some moment of it, before, between or after the signals, and
    it ends at the first such moment.
  */
  lemma {:induction false} WaitEndsWhenReady(s: Link, signals: seq<Signal>) returns (k: nat)
    ensures k <= |signals| && Waited(s, signals) == ReactAll(s, signals[..k])
    ensures forall i: nat :: i < k ==> !ReactAll(s, signals[..i]).ready
    ensures Waited(s, signals).ready <==> exists i: nat :: i <= |signals| && ReactAll(s, signals[..i]).ready
    decreases |signals|
  {
    if s.ready || signals == [] {
      k := 0;
      assert signals[..k] == [];
      assert ReactAll(s, signals[..k]) == s;
    } else {
      var j := WaitEndsWhenReady(React(s, signals[0]), signals[1..]);
      k := j + 1;
      assert ReactAll(s, signals[..0]) == s;
      forall i: nat | 0 < i <= |signals|
        ensures ReactAll(s, signals[..i]) == ReactAll(React(s, signals[0]), signals[1..][..i - 1])
      {
        ReactFirst(s, signals[..i]);
        assert signals[..i][1..] == signals[1..][..i - 1];
      }
      hide ReactAll, Waited, React;
      assert forall i: nat :: 0 < i <= |signals| && ReactAll(s, signals[..i]).ready ==>
               i - 1 <= |signals[1..]| && ReactAll(React(s, signals[0]), signals[1..][..i - 1]).ready;
      if i: nat :| i <= |signals[1..]| && ReactAll(React(s, signals[0]), signals[1..][..i]).ready {
        assert ReactAll(s, signals[..i + 1]).ready;
      }
    }
  }

  /** The link an attempt starts from once its wait is over. */
  function Awaited(s: Link, attempt: Attempt): Link {
    Waited(Started(s), attempt.waiting)
  }

  /** What one attempt comes to: it needs a link that is ready in time, and a confirmation. */
  predicate Succeeds(s: Link, attempt: Attempt) {
    Awaited(s, attempt).ready && attempt.transport.Confirmed?
  }

  /** The broker gets the message although the attempt may not learn of it. */
  predicate Reaches(s: Link, attempt: Attempt) {
    Awaited(s, attempt).ready && (attempt.transport.Confirmed? || attempt.transport == Unconfirmed(true))
  }

  function Tried(s: Link, attempt: Attempt): Link {
    var ready := Awaited(s, attempt);
    if ready.ready && !attempt.transport.ThrowsOnPublish? then ReactAll(ready, attempt.meanwhile) else ready
  }

  /** After a failed attempt the channel it used, if it got one, is given up. */
  function GivenUp(s: Link, attempt: Attempt): Link {
    Invalidated(Tried(s, attempt), if Awaited(s, attempt).ready then Awaited(s, attempt).channel else None)
  }

  /** The outcome of two attempts, the second made only when the first fails. */
  predicate Delivers(s: Link, attempts: (Attempt, Attempt)) {
    Succeeds(s, attempts.0) || Succeeds(GivenUp(s, attempts.0), attempts.1)
  }

  function Afterwards(s: Link, attempts: (Attempt, Attempt)): Link {
    var retry := GivenUp(s, attempts.0);
    if Succeeds(s, attempts.0) then Tried(s, attempts.0)
    else if Succeeds(retry, attempts.1) then Tried(retry, attempts.1) else GivenUp(retry, attempts.1)
  }

  predicate CanRebuild(s: Link) {
    s.connected && !s.stopping && !s.blocked
  }

  /** The first attempt fails with no signal about it, and all the second one sees is a channel rebuilt. */
  predicate OnlyRebuilt(s: Link, attempts: (Attempt, Attempt)) {
    && attempts.0.waiting == [] && attempts.0.meanwhile == [] && !(s.ready && attempts.0.transport.Confirmed?)
    && attempts.1.transport.Confirmed?
    && |attempts.1.waiting| == 1 && attempts.1.waiting[0].RebuildDone? && attempts.1.waiting[0].channel.Some?
  }

  lemma RebuildMakesUp(s: Link, attempts: (Attempt, Attempt))
    requires CanRebuild(s) && OnlyRebuilt(s, attempts)
    ensures !Succeeds(s, attempts.0) && Succeeds(GivenUp(s, attempts.0), attempts.1)
    ensures attempts.1.meanwhile == [] ==>
      var after := Tried(GivenUp(s, attempts.0), attempts.1); after.ready && after.channel == attempts.1.waiting[0].channel
  {
    var lost := GivenUp(s, attempts.0);
    assert CanRebuild(lost) && lost.rebuilding && !lost.ready;
    var start, signals := Started(lost), attempts.1.waiting;
    assert signals[1..] == [] && React(start, signals[0]).ready;
    assert Waited(start, signals) == Waited(React(start, signals[0]), []);
  }

  class EventPublisher {
    const broker: Broker
    var channel: Option<nat>
    var started: bool
    var connected: bool
    var rebuilding: bool
    var ready: bool
    var blocked: bool
    var stopping: bool

    ghost predicate Valid()
      reads this
    {
      ready ==> channel.Some? && !blocked
    }

    function View(): Link
      reads this
    {
      Link(channel, started, connected, rebuilding, ready, blocked, stopping)
    }

    constructor (broker: Broker)
      ensures Valid() && this.broker == broker && channel.None? && !started && !connected && !rebuilding && !ready && !blocked && !stopping
    {
      this.broker := broker;
      channel, started, connected, rebuilding, ready, blocked, stopping := None, false, false, false, false, false, false;
    }

    /** The check of `blocked` is redundant in every state the handlers can reach. */
    method IsReady() returns (r: bool)
      requires Valid()
      ensures r == ready
    {
      return ready && !blocked;
    }

    /** Connects the first time it is called, and only then: a publisher that was shut down does not come back. */
    method Start()
      modifies this`started, this`connected
      ensures started && connected == (old(connected) || !old(started))
    {
      if !started {
        started, connected := true, true;
      }
    }

    method Destroy()
      modifies this
      ensures Valid() && stopping && !ready && !blocked && channel.None? && !connected
      ensures rebuilding == old(rebuilding) && started == old(started)
    {
      stopping, ready, blocked := true, false, false;
      channel, connected := None, false;
    }

    /** One rebuild at a time, and none while stopping, blocked or without a connection. */
    method ScheduleChannelRebuild()
      modifies this`rebuilding
      ensures rebuilding == (old(rebuilding) || !(stopping || blocked || !connected))
    {
      if stopping || blocked || !connected || rebuilding {
        return;
      }
      rebuilding := true;
    }

    method InstallChannel(ch: nat)
      modifies this`channel, this`ready
      ensures Valid() && channel == Some(ch) && ready == !blocked
    {
      channel := Some(ch);
      ready := !blocked;
    }

    /** After a failed attempt the channel it used is dropped, and a rebuild is under way unless nothing could come of it. */
    method InvalidateChannel(ch: Option<nat>)
      modifies this`channel, this`ready, this`rebuilding
      ensures Valid() && !ready
      ensures channel == if old(channel) == ch then None else old(channel)
      ensures rebuilding == (old(rebuilding) || !(stopping || blocked || !connected))
      ensures View() == Invalidated(old(View()), ch)
    {
      ready := false;
      if ch.Some? && channel == ch {
        channel := None;
      }
      ScheduleChannelRebuild();
    }

    method OnSignal(signal: Signal)
      requires Valid()
      modifies this`channel, this`ready, this`blocked, this`rebuilding
      ensures Valid()
      ensures signal.Disconnected? ==> !ready && channel.None?
      ensures signal.ConnectFailed? || signal.ReconnectFailed? ==> !ready && channel == old(channel)
      ensures blocked == (signal.BlockedByBroker? || (old(blocked) && !signal.Unblocked?))
      ensures signal.BlockedByBroker? ==> !ready && channel == old(channel)
      ensures signal.Unblocked? ==>
        && channel == old(channel) && ready == channel.Some?
        && rebuilding == (old(rebuilding) || (channel.None? && connected && !stopping))
      ensures signal.ChannelError? ==> channel == old(channel) && ready == (old(ready) && old(channel) != Some(signal.ch))
      ensures signal.ChannelClosed? ==>
        if old(channel) == Some(signal.ch) then channel.None? && !ready && rebuilding == (old(rebuilding) || !(stopping || blocked || !connected))
        else channel == old(channel) && ready == old(ready) && rebuilding == old(rebuilding)
      ensures !signal.Unblocked? && !signal.ChannelClosed? && !signal.RebuildDone? ==> rebuilding == old(rebuilding)
      ensures signal.Recovered? ==> channel == Some(signal.ch) && ready == !blocked
      ensures signal.RebuildDone? && old(rebuilding) ==>
        !rebuilding && if signal.channel.Some? then channel == signal.channel && ready == !blocked else !ready && channel == old(channel)
      ensures signal.RebuildDone? && !old(rebuilding) ==> !rebuilding && channel == old(channel) && ready == old(ready)
      ensures View() == React(old(View()), signal)
    {
      match signal
      case Disconnected =>
        ready := false;
        channel := None;
      case ConnectFailed =>
        ready := false;
      case ReconnectFailed =>
        ready := false;
      case BlockedByBroker =>
        blocked := true;
        ready := false;
      case Unblocked =>
        blocked := false;
        if channel.Some? {
          ready := true;
        } else {
          ScheduleChannelRebuild();
        }
      case ChannelError(ch) =>
        if channel == Some(ch) {
          ready := false;
        }
      case ChannelClosed(ch) =>
        if channel == Some(ch) {
          channel := None;
          ready := false;
          ScheduleChannelRebuild();
        }
      case Recovered(ch) =>
        InstallChannel(ch);
      case RebuildDone(ch) =>
        if rebuilding {
          if ch.Some? {
            InstallChannel(ch.value);
          } else {
            ready := false;
          }
          rebuilding := false;
        }
    }

    method OnSignals(signals: seq<Signal>)
      requires Valid()
      modifies this`channel, this`ready, this`blocked, this`rebuilding
      ensures Valid() && View() == ReactAll(old(View()), signals)
    {
      assert signals[..0] == [] && signals[..|signals|] == signals;
      for i := 0 to |signals|
        invariant Valid() && View() == ReactAll(old(View()), signals[..i])
      {
        OnSignal(signals[i]);
        assert signals[..i + 1][..i] == signals[..i];
      }
    }

    /** Polls until ready or past the deadline, which falls when the signals run out. */
    method WaitUntilReady(signals: seq<Signal>) returns (ok: bool)
      requires Valid()
      modifies this`started, this`connected, this`channel, this`ready, this`blocked, this`rebuilding
      ensures Valid() && ok == ready && View() == Waited(Started(old(View())), signals)
      ensures started && connected == (old(connected) || !old(started))
      ensures old(ready) ==> ok && channel == old(channel)
      ensures !old(ready) && signals == [] ==> !ok
      ensures |signals| == 1 && signals[0].RebuildDone? && signals[0].channel.Some? && old(rebuilding) && !old(blocked) && !old(ready) ==>
        ok && channel == signals[0].channel
    {
      Start();
      ghost var from := View();
      ok := IsReady();
      var i := 0;
      assert signals[0..] == signals;
      while !ok && i < |signals|
        invariant 0 <= i <= |signals| && Valid() && ok == ready
        invariant started && connected == (old(connected) || !old(started))
        invariant old(ready) ==> ok && channel == old(channel)
        invariant Waited(from, signals) == Waited(View(), signals[i..])
      {
        assert signals[i..][1..] == signals[i + 1..];
        OnSignal(signals[i]);
        ok := IsReady();
        i := i + 1;
      }
    }

    /** One try: whether it was confirmed, and the channel it used if it got one. */
    method Try(key: string, m: Message, attempt: Attempt) returns (confirmed: bool, used: Option<nat>)
      requires Valid() && Routed(key)
      modifies this`started, this`connected, this`channel, this`ready, this`blocked, this`rebuilding, broker
      ensures Valid() && View() == Tried(old(View()), attempt)
      ensures confirmed <==> Succeeds(old(View()), attempt)
      ensures used == if Awaited(old(View()), attempt).ready then Awaited(old(View()), attempt).channel else None
      ensures broker.queue == if Reaches(old(View()), attempt) then old(broker.queue) + [m] else old(broker.queue)
      ensures old(ready) ==> used == old(channel) && (attempt.transport.Confirmed? ==> confirmed && (attempt.meanwhile == [] ==> ready))
      ensures !old(ready) && attempt.waiting == [] ==> !confirmed && broker.queue == old(broker.queue)
      ensures old(ready) ==>
        broker.queue == old(broker.queue) + if attempt.transport.Confirmed? || attempt.transport == Unconfirmed(true) then [m] else []
    {
      confirmed, used := false, None;
      var usable := WaitUntilReady(attempt.waiting);
      if !usable {
        return;
      }
      used := channel;
      if used.None? || attempt.transport.ThrowsOnPublish? {
        return;
      }
      if attempt.transport.Confirmed? || attempt.transport.reached {
        broker.Publish(key, m);
      }
      OnSignals(attempt.meanwhile);
      return attempt.transport.Confirmed?, used;
    }

    /** The body of the loop: a failed try gives up the channel it used. */
    method TryOrInvalidate(key: string, m: Message, attempt: Attempt) returns (confirmed: bool)
      requires Valid() && Routed(key)
      modifies this`started, this`connected, this`channel, this`ready, this`blocked, this`rebuilding, broker
      ensures Valid() && View() == if confirmed then Tried(old(View()), attempt) else GivenUp(old(View()), attempt)
      ensures confirmed <==> Succeeds(old(View()), attempt)
      ensures broker.queue == if Reaches(old(View()), attempt) then old(broker.queue) + [m] else old(broker.queue)
      ensures old(ready) && attempt.transport.Confirmed? ==> confirmed && (attempt.meanwhile == [] ==> ready)
      ensures confirmed ==> Reaches(old(View()), attempt) && attempt.transport.Confirmed?
      ensures !confirmed ==> !ready && (rebuilding || stopping || blocked || !connected)
    {
      var used;
      confirmed, used := Try(key, m, attempt);
      if !confirmed {
        InvalidateChannel(used);
      }
    }

    /**
      At most two tries, the second exactly when the first fails: it succeeds when one of them has a link that is
      ready in time and is confirmed. The broker then holds the message, once or twice; a failure may have left up to
      two copies as well, and leaves a rebuild under way unless nothing could come of one. In particular, a first try
      that fails on a live connection is made up for by a rebuilt channel and a confirmation on the second.
    */
    method PublishEnvelope(e: Event, attempts: (Attempt, Attempt)) returns (ok: bool)
      requires Valid()
      modifies this`started, this`connected, this`channel, this`ready, this`blocked, this`rebuilding, broker
      ensures Valid()
      ensures var s := old(View());
              var retry := GivenUp(s, attempts.0);
              var second := !Succeeds(s, attempts.0);
              && (ok <==> Delivers(s, attempts)) && View() == Afterwards(s, attempts)
              && broker.queue == old(broker.queue) + Copies(Some(Build(e)),
                   (if Reaches(s, attempts.0) then 1 else 0) + if second && Reaches(retry, attempts.1) then 1 else 0)
      ensures ok ==> |broker.queue| > |old(broker.queue)| && (attempts.0.transport.Confirmed? || attempts.1.transport.Confirmed?)
      ensures !ok ==> !ready && (rebuilding || stopping || blocked || !connected)
      ensures old(ready) && attempts.0.transport.Confirmed? ==>
        ok && |broker.queue| == |old(broker.queue)| + 1 && (attempts.0.meanwhile == [] ==> ready)
      ensures
        && old(connected) && !old(stopping) && !old(blocked) && attempts.0.waiting == [] && attempts.0.meanwhile == []
        && !(old(ready) && attempts.0.transport.Confirmed?) && attempts.1.transport.Confirmed?
        && |attempts.1.waiting| == 1 && attempts.1.waiting[0].RebuildDone? && attempts.1.waiting[0].channel.Some? ==>
        ok && |broker.queue| > |old(broker.queue)| && (attempts.1.meanwhile == [] ==> ready && channel == attempts.1.waiting[0].channel)
    {
      var m: Message := Some(Build(e));
      EveryEventIsRouted(e.data);
      ghost var s := View();
      ghost var retry := GivenUp(s, attempts.0);
      if CanRebuild(s) && OnlyRebuilt(s, attempts) {
        RebuildMakesUp(s, attempts);
      }
      hide Build, TypeName, Routed, Copies, Waited, ReactAll, Invalidated, Awaited, Tried, Succeeds, Reaches, GivenUp;
      ghost var sent, n := broker.queue, 0;
      CopiesCount(sent, m, 0);
      for attempt := 1 to 3
        invariant Valid()
        invariant 0 <= n <= attempt - 1 && broker.queue == sent + Copies(m, n) && |broker.queue| == |sent| + n
        invariant attempt == 1 ==> View() == s && n == 0
        invariant attempt > 1 ==> !ready && (rebuilding || stopping || blocked || !connected) && !Succeeds(s, attempts.0)
        invariant attempt == 2 ==> View() == retry && n == (if Reaches(s, attempts.0) then 1 else 0)
        invariant attempt == 3 ==>
          && View() == GivenUp(retry, attempts.1) && !Succeeds(retry, attempts.1)
          && n == (if Reaches(s, attempts.0) then 1 else 0) + if Reaches(retry, attempts.1) then 1 else 0
      {
        CopiesCount(sent, m, n);
        ghost var before := View();
        var current := if attempt == 1 then attempts.0 else attempts.1;
        var confirmed := TryOrInvalidate(TypeName(e.data), m, current);
        n := if Reaches(before, current) then n + 1 else n;
        if confirmed {
          return true;
        }
      }
      return false;
    }
  }
}
