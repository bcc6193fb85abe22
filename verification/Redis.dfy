/** The broker behind src/server/redis/redis.cpp. */
module RedisBroker {
  import opened ChatTypes
  import opened DecimalText

  /** A publication is appended to the queue of every current subscriber. */
  function Deliver(inbox: Inbox, cp: Copy): Inbox {
    if cp.user in inbox.subs then inbox.(queue := inbox.queue + [cp]) else inbox
  }

  function Publish(inboxes: seq<Inbox>, cp: Copy): (r: seq<Inbox>)
    ensures |r| == |inboxes|
    ensures forall i | 0 <= i < |inboxes| :: r[i] == Deliver(inboxes[i], cp)
  {
    seq(|inboxes|, i requires 0 <= i < |inboxes| => Deliver(inboxes[i], cp))
  }

  function Subscribe(inboxes: seq<Inbox>, i: nat, channel: UserId): (r: seq<Inbox>)
    requires i < |inboxes|
    ensures |r| == |inboxes|
  {
    inboxes[i := inboxes[i].(subs := inboxes[i].subs + {channel})]
  }

  /** Messages already queued stay queued. */
  function Unsubscribe(inboxes: seq<Inbox>, i: nat, channel: UserId): (r: seq<Inbox>)
    requires i < |inboxes|
    ensures |r| == |inboxes|
  {
    inboxes[i := inboxes[i].(subs := inboxes[i].subs - {channel})]
  }

  function UnsubscribeAll(inboxes: seq<Inbox>, i: nat, channels: set<UserId>): (r: seq<Inbox>)
    requires i < |inboxes|
    ensures |r| == |inboxes|
  {
    inboxes[i := inboxes[i].(subs := inboxes[i].subs - channels)]
  }

  lemma UnsubscribeNone(inboxes: seq<Inbox>, i: nat)
    requires i < |inboxes|
    ensures UnsubscribeAll(inboxes, i, {}) == inboxes
  {
    assert inboxes[i].subs - {} == inboxes[i].subs;
  }

  lemma UnsubscribeOneMore(inboxes: seq<Inbox>, i: nat, channels: set<UserId>, channel: UserId)
    requires i < |inboxes|
    ensures Unsubscribe(UnsubscribeAll(inboxes, i, channels), i, channel)
         == UnsubscribeAll(inboxes, i, channels + {channel})
  {
    var subs := inboxes[i].subs;
    assert subs - channels - {channel} == subs - (channels + {channel});
  }

  /** How many processes a publication on `channel` reaches. */
  function Subscribers(inboxes: seq<Inbox>, channel: UserId): nat {
    if inboxes == [] then 0
    else Subscribers(inboxes[..|inboxes| - 1], channel) +
         (if channel in inboxes[|inboxes| - 1].subs then 1 else 0)
  }

  /** An inbox as the broker keeps it: channels are text. */
  datatype TextInbox = TextInbox(subs: set<string>, queue: seq<(string, Json)>)

  ghost function ReadInbox(t: TextInbox): Inbox {
    Inbox(set s | s in t.subs :: Atoi(s),
          seq(|t.queue|, k requires 0 <= k < |t.queue| => Copy(Atoi(t.queue[k].0), t.queue[k].1)))
  }

  ghost predicate PrintedSubs(t: TextInbox) {
    forall s | s in t.subs :: s == PrintInt(Atoi(s))
  }

  lemma SubscribedAsText(t: TextInbox, channel: UserId)
    requires PrintedSubs(t)
    ensures PrintInt(channel) in t.subs <==> channel in ReadInbox(t).subs
  {
    PrintedChannelReadsBack(channel);
  }

  lemma SubsAfterSubscribe(t: TextInbox, channel: UserId)
    requires PrintedSubs(t)
    ensures var t' := t.(subs := t.subs + {PrintInt(channel)});
            PrintedSubs(t') && ReadInbox(t') == ReadInbox(t).(subs := ReadInbox(t).subs + {channel})
  {
    PrintedChannelReadsBack(channel);
    var t' := t.(subs := t.subs + {PrintInt(channel)});
    assert PrintInt(channel) in t'.subs;
    assert ReadInbox(t').subs == ReadInbox(t).subs + {channel};
    assert ReadInbox(t').queue == ReadInbox(t).queue;
  }

  lemma SubsAfterUnsubscribe(t: TextInbox, channel: UserId)
    requires PrintedSubs(t)
    ensures var t' := t.(subs := t.subs - {PrintInt(channel)});
            PrintedSubs(t') && ReadInbox(t') == ReadInbox(t).(subs := ReadInbox(t).subs - {channel})
  {
    PrintedChannelReadsBack(channel);
    var t' := t.(subs := t.subs - {PrintInt(channel)});
    forall u ensures u in ReadInbox(t').subs <==> u in ReadInbox(t).subs - {channel} {
      if u in ReadInbox(t).subs - {channel} {
        SubscribedAsText(t, u);
        PrintedChannelReadsBack(u);
        assert PrintInt(u) in t'.subs;
      }
    }
    assert ReadInbox(t').subs == ReadInbox(t).subs - {channel};
    assert ReadInbox(t').queue == ReadInbox(t).queue;
  }

  /** From `t` to `t'`, the publication has reached the inbox, if it is subscribed. */
  ghost predicate Reached(t: TextInbox, t': TextInbox, cp: Copy) {
    PrintedSubs(t') && ReadInbox(t') == Deliver(ReadInbox(t), cp)
  }

  lemma QueueAfterDeliver(t: TextInbox, channel: UserId, msg: Json)
    requires PrintedSubs(t)
    ensures var t' := if PrintInt(channel) in t.subs then t.(queue := t.queue + [(PrintInt(channel), msg)]) else t;
            Reached(t, t', Copy(channel, msg))
  {
    SubscribedAsText(t, channel);
    PrintedChannelReadsBack(channel);
    if PrintInt(channel) in t.subs {
      var t' := t.(queue := t.queue + [(PrintInt(channel), msg)]);
      assert ReadInbox(t').queue == ReadInbox(t).queue + [Copy(channel, msg)];
    }
  }

  ghost function ReadInboxes(ts: seq<TextInbox>): (r: seq<Inbox>)
    ensures |r| == |ts|
  {
    seq(|ts|, i requires 0 <= i < |ts| => ReadInbox(ts[i]))
  }

  lemma AllReached(was: seq<TextInbox>, now: seq<TextInbox>, cp: Copy)
    requires |was| == |now| && forall k | 0 <= k < |was| :: Reached(was[k], now[k], cp)
    ensures ReadInboxes(now) == Publish(ReadInboxes(was), cp)
  {
    assert forall k | 0 <= k < |was| :: ReadInboxes(was)[k] == ReadInbox(was[k]);
  }

  /** The broker all processes connect to. Channels are printed on the way in
      and parsed on the way out; `Inboxes` is the broker with integer channels. */
  class Redis {
    var inboxes: seq<TextInbox>

    ghost predicate Valid()
      reads this
    {
      forall i | 0 <= i < |inboxes| :: PrintedSubs(inboxes[i])
    }

    ghost function Inboxes(): (r: seq<Inbox>)
      reads this
      ensures |r| == |inboxes|
    {
      ReadInboxes(inboxes)
    }

    constructor (processes: nat)
      ensures Valid() && Inboxes() == seq(processes, i => Inbox({}, []))
    {
      inboxes := seq(processes, i => TextInbox({}, []));
      new;
      assert forall i | 0 <= i < processes :: ReadInbox(inboxes[i]) == Inbox({}, []);
    }

    method PublishTo(channel: UserId, msg: Json)
      requires Valid()
      modifies this
      ensures Valid()
      ensures Inboxes() == Publish(old(Inboxes()), Copy(channel, msg))
    {
      var text := PrintInt(channel);
      ghost var was := inboxes;
      var i := 0;
      while i < |inboxes|
        invariant 0 <= i <= |inboxes| == |was|
        invariant forall k | i <= k < |was| :: inboxes[k] == was[k]
        invariant forall k | 0 <= k < i :: Reached(was[k], inboxes[k], Copy(channel, msg))
      {
        QueueAfterDeliver(inboxes[i], channel, msg);
        if text in inboxes[i].subs {
          inboxes := inboxes[i := inboxes[i].(queue := inboxes[i].queue + [(text, msg)])];
        }
        i := i + 1;
      }
      AllReached(was, inboxes, Copy(channel, msg));
    }

    method SubscribeTo(process: nat, channel: UserId)
      requires Valid() && process < |inboxes|
      modifies this
      ensures Valid()
      ensures Inboxes() == Subscribe(old(Inboxes()), process, channel)
    {
      SubsAfterSubscribe(inboxes[process], channel);
      var inbox := inboxes[process];
      inboxes := inboxes[process := inbox.(subs := inbox.subs + {PrintInt(channel)})];
    }

    method UnsubscribeFrom(process: nat, channel: UserId)
      requires Valid() && process < |inboxes|
      modifies this
      ensures Valid()
      ensures Inboxes() == Unsubscribe(old(Inboxes()), process, channel)
    {
      SubsAfterUnsubscribe(inboxes[process], channel);
      var inbox := inboxes[process];
      inboxes := inboxes[process := inbox.(subs := inbox.subs - {PrintInt(channel)})];
    }

    /** Takes the oldest message out of a process's inbox and parses its channel. */
    method NextReply(process: nat) returns (channel: UserId, msg: Json)
      requires Valid() && process < |inboxes| && inboxes[process].queue != []
      modifies this
      ensures Valid()
      ensures var inbox := old(Inboxes())[process];
              inbox.queue != [] && Copy(channel, msg) == inbox.queue[0] &&
              Inboxes() == old(Inboxes())[process := inbox.(queue := inbox.queue[1..])]
    {
      var inbox := inboxes[process];
      channel, msg := Atoi(inbox.queue[0].0), inbox.queue[0].1;
      inboxes := inboxes[process := inbox.(queue := inbox.queue[1..])];
      assert ReadInbox(inboxes[process]).queue == ReadInbox(inbox).queue[1..];
      assert ReadInbox(inboxes[process]).subs == ReadInbox(inbox).subs;
    }
  }
}
