/** The dedupe window of internal/notifier/notifier.go, against the full history of what was sent. */
module Notifier {
  /** Five minutes in nanoseconds. */
  const DEDUPE_WINDOW := 300_000_000_000

  datatype Sent = Sent(key: string, at: int)

  /** key was sent within the window before now. */
  ghost predicate Recently(sent: seq<Sent>, key: string, now: int) {
    exists i :: 0 <= i < |sent| && sent[i].key == key && now - sent[i].at < DEDUPE_WINDOW
  }

  /** Sends of one key are at least a window apart. */
  ghost predicate Spaced(sent: seq<Sent>) {
    forall i, j :: 0 <= i < j < |sent| && sent[i].key == sent[j].key ==> sent[j].at - sent[i].at >= DEDUPE_WINDOW
  }

  /** The map forgets a send only once it is out of the window. */
  ghost predicate Accounts(last: map<string, int>, sent: seq<Sent>, clock: int) {
    && Spaced(sent)
    && (forall i :: 0 <= i < |sent| ==> sent[i].at <= clock)
    && (forall i :: 0 <= i < |sent| && clock - sent[i].at < DEDUPE_WINDOW ==>
      sent[i].key in last && last[sent[i].key] == sent[i].at)
    && (forall key :: key in last ==> Sent(key, last[key]) in sent)
  }

  /** The map answers for the whole history. */
  lemma MapAnswers(last: map<string, int>, sent: seq<Sent>, clock: int, key: string, now: int)
    requires Accounts(last, sent, clock) && clock <= now
    ensures Accounts(last, sent, now) && Spaced(sent)
    ensures key in last && now - last[key] < DEDUPE_WINDOW <==> Recently(sent, key, now)
  {
    if key in last {
      var i :| 0 <= i < |sent| && sent[i] == Sent(key, last[key]);
    }
  }

  lemma AfterSend(last: map<string, int>, sent: seq<Sent>, key: string, now: int)
    requires Accounts(last, sent, now) && !Recently(sent, key, now)
    ensures Accounts(last[key := now], sent + [Sent(key, now)], now) && Spaced(sent + [Sent(key, now)])
  {
    var last', sent' := last[key := now], sent + [Sent(key, now)];
    forall k | k in last' ensures Sent(k, last'[k]) in sent' {
      assert sent'[|sent|] == Sent(key, now);
      if k != key {
        var i :| 0 <= i < |sent| && sent[i] == Sent(k, last[k]);
        assert sent'[i] == sent[i];
      }
    }
  }

  lemma AfterPrune(last: map<string, int>, sent: seq<Sent>, k: string, now: int)
    requires Accounts(last, sent, now) && k in last && now - last[k] >= DEDUPE_WINDOW
    ensures Accounts(last - {k}, sent, now)
  {
  }

  class Notifier {
    var last: map<string, int>
    ghost var sent: seq<Sent>
    ghost var clock: int

    ghost predicate Valid()
      reads this
    {
      Accounts(last, sent, clock)
    }

    /** start is any reading of the clock before the first message. */
    constructor (ghost start: int)
      ensures Valid() && sent == [] && clock == start
    {
      last, sent, clock := map[], [], start;
    }

    /**
     shouldSend answers as a notifier that never forgot anything would, and after
     a send the map holds only keys of the current window. now is the reading of
     a clock that does not run backwards.
     */
    method ShouldSend(key: string, now: int) returns (send: bool)
      requires Valid() && clock <= now
      modifies this
      ensures Valid() && clock == now
      ensures send <==> !Recently(old(sent), key, now)
      ensures sent == (if send then old(sent) + [Sent(key, now)] else old(sent)) && Spaced(sent)
      ensures send ==> forall k :: k in last ==> now - last[k] < DEDUPE_WINDOW
    {
      hide Accounts, Recently, Spaced;
      MapAnswers(last, sent, clock, key, now);
      clock := now;
      if key in last && now - last[key] < DEDUPE_WINDOW { return false; }
      AfterSend(last, sent, key, now);
      last := last[key := now];
      sent := sent + [Sent(key, now)];
      var left := last.Keys;
      while left != {}
        invariant Valid() && clock == now && sent == old(sent) + [Sent(key, now)] && left <= last.Keys
        invariant forall k :: k in last && k !in left ==> now - last[k] < DEDUPE_WINDOW
        decreases left
      {
        var k :| k in left;
        left := left - {k};
        if now - last[k] >= DEDUPE_WINDOW {
          AfterPrune(last, sent, k, now);
          last := last - {k};
        }
      }
      return true;
    }
  }
}
