/** Event channels: who subscribed hears everything from then on until the watcher is
    closed, in the one order in which it was sent. */
module Subscribers {
  import opened Containers
  import opened WatcherModel

  /** A channel as the log of what was sent through it. Sending on a closed channel, and
      closing it again, panics: that is what the preconditions rule out. */
  class Channel {
    var received: seq<Note>
    var closed: bool
    ghost var since: nat   // how many notifications there had been before it was made
    ghost var until: nat   // and before it was closed

    constructor (ghost since: nat)
      ensures received == [] && !closed && this.since == since
    {
      received, closed := [], false;
      this.since, this.until := since, since;
    }

    method Send(note: Note)
      requires !closed
      modifies this`received
      ensures received == old(received) + [note]
    {
      received := received + [note];
    }

    method Close(ghost now: nat)
      requires !closed
      modifies this`closed, this`until
      ensures closed && until == now
    {
      closed := true;
      until := now;
    }
  }

  class Subscriptions {
    var eventchs: seq<Channel>
    ghost var sent: seq<Note>       // all notifications there ever were
    ghost var given: set<Channel>   // all channels there ever were

    /** What the channel got is the slice of all notifications during its lifetime. */
    ghost predicate Heard(ch: Channel)
      reads this, ch
    {
      if ch.closed
      then ch.since <= ch.until <= |sent| && ch.received == sent[ch.since..ch.until]
      else ch.since <= |sent| && ch.received == sent[ch.since..]
    }

    ghost predicate Valid()
      reads this, given
    {
      && (forall i, j | 0 <= i < j < |eventchs| :: eventchs[i] != eventchs[j])
      && (forall i | 0 <= i < |eventchs| :: eventchs[i] in given)
      && (forall ch | ch in given :: Heard(ch) && (ch.closed <==> ch !in eventchs))
    }

    constructor ()
      ensures Valid() && sent == [] && given == {}
    {
      eventchs, sent, given := [], [], {};
    }

    method Events() returns (ch: Channel)
      requires Valid()
      modifies this`eventchs, this`given
      ensures Valid() && fresh(ch) && given == old(given) + {ch}
      ensures !ch.closed && ch.since == |sent| && ch.received == []
    {
      ch := new Channel(|sent|);
      eventchs := eventchs + [ch];
      given := given + {ch};
    }

    /** Nothing is sent for no container. Otherwise every open channel gets it, and no
        closed one is touched. */
    method Notify(kind: EventType, container: Option<Details>)
      requires Valid()
      modifies this`sent, eventchs
      ensures Valid()
      ensures sent == if container.None? then old(sent) else old(sent) + [Note(kind, container.value)]
      ensures forall ch | ch in given ::
                ch.since == old(ch.since) && ch.closed == old(ch.closed) && ch.until == old(ch.until)
      ensures forall ch | ch in given && ch.closed :: unchanged(ch)
    {
      if container.None? {
        return;
      }
      var note := Note(kind, container.value);
      for i := 0 to |eventchs|
        invariant sent == old(sent)
        invariant forall j | 0 <= j < |eventchs| ::
                    && !eventchs[j].closed && eventchs[j].since == old(eventchs[j].since)
                    && eventchs[j].until == old(eventchs[j].until)
                    && eventchs[j].received == old(eventchs[j].received) + if j < i then [note] else []
        invariant forall ch | ch in given && ch !in eventchs :: unchanged(ch)
      {
        eventchs[i].Send(note);
      }
      sent := sent + [note];
      forall ch | ch in given ensures Heard(ch) {
        assert old(Heard(ch));
        if ch in eventchs {
          assert sent[ch.since..] == old(sent)[ch.since..] + [note];
        } else {
          assert sent[ch.since..ch.until] == old(sent)[ch.since..ch.until];
        }
      }
    }

    /** Every channel there is gets closed, once; closing again changes nothing. */
    method Close()
      requires Valid()
      modifies this`eventchs, eventchs
      ensures Valid() && eventchs == []
      ensures forall ch | ch in given :: ch.closed && ch.received == old(ch.received) && ch.since == old(ch.since)
      ensures forall ch | ch in given && old(ch.closed) :: unchanged(ch)
      ensures forall ch | ch in given && !old(ch.closed) :: ch.until == |sent|
    {
      for i := 0 to |eventchs|
        invariant eventchs == old(eventchs)
        invariant forall j | 0 <= j < |eventchs| ::
                    && eventchs[j].received == old(eventchs[j].received) && eventchs[j].since == old(eventchs[j].since)
                    && (eventchs[j].closed <==> j < i) && (j < i ==> eventchs[j].until == |sent|)
        invariant forall ch | ch in given && ch !in eventchs :: unchanged(ch)
      {
        eventchs[i].Close(|sent|);
      }
      eventchs := [];
      forall ch | ch in given ensures Heard(ch) && ch.closed {
        if ch in old(eventchs) {
          var j :| 0 <= j < |old(eventchs)| && old(eventchs)[j] == ch;
          assert sent[ch.since..] == sent[ch.since..|sent|];
        }
      }
    }
  }

  /** How many notifications there had been when the channel was closed, or are now. */
  ghost function End(s: Subscriptions, ch: Channel): nat
    reads s, ch
  {
    if ch.closed then ch.until else |s.sent|
  }

  /** All subscribers hear the same order, closed or not: what two channels have received
      during the time that they shared is the same, and neither has missed or heard anything
      else during its own lifetime. */
  lemma SameOrderForAll(s: Subscriptions, a: Channel, b: Channel, from: nat, to: nat)
    requires s.Valid() && a in s.given && b in s.given
    requires a.since <= from <= to <= End(s, a) && b.since <= from <= to <= End(s, b)
    ensures |a.received| == End(s, a) - a.since && |b.received| == End(s, b) - b.since
    ensures a.received[from - a.since..to - a.since] == b.received[from - b.since..to - b.since] == s.sent[from..to]
  {
    SliceHeard(s, a, from, to);
    SliceHeard(s, b, from, to);
  }

  lemma SliceHeard(s: Subscriptions, ch: Channel, from: nat, to: nat)
    requires s.Valid() && ch in s.given && ch.since <= from <= to <= End(s, ch)
    ensures |ch.received| == End(s, ch) - ch.since && End(s, ch) <= |s.sent|
    ensures ch.received[from - ch.since..to - ch.since] == s.sent[from..to]
  {
    assert s.Heard(ch);
    assert ch.received == s.sent[ch.since..End(s, ch)];
    assert s.sent[ch.since..End(s, ch)][from - ch.since..to - ch.since] == s.sent[from..to];
  }
}
