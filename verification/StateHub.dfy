/**
 The State object's subscriber plumbing: the version stands for all the fields
 a setter may change, a Channel for a channel that buffers one notification.
 */
module StateHub {
  import opened Notify

  class Channel {
    var full: bool

    constructor ()
      ensures !full
    {
      full := false;
    }
  }

  class State {
    var version: nat
    var channels: seq<Channel>

    ghost predicate Valid()
      reads this
    {
      forall i, j :: 0 <= i < j < |channels| ==> channels[i] != channels[j]
    }

    constructor ()
      ensures Valid() && version == 0 && channels == []
    {
      version, channels := 0, [];
    }

    /** A non-blocking send to every subscriber: full channels stay full. */
    method Broadcast()
      requires Valid()
      modifies channels
      ensures forall ch :: ch in channels ==> ch.full
    {
      for i := 0 to |channels|
        invariant forall k :: 0 <= k < i ==> channels[k].full
      {
        if !channels[i].full {
          channels[i].full := true;
        }
      }
    }

    /** Change the state, then notify. */
    method Set()
      requires Valid()
      modifies this`version, channels
      ensures version == old(version) + 1
      ensures forall ch :: ch in channels ==> ch.full
    {
      version := version + 1;
      Broadcast();
    }

    method Subscribe() returns (ch: Channel)
      requires Valid()
      modifies this`channels
      ensures Valid() && fresh(ch) && !ch.full && channels == old(channels) + [ch]
    {
      ch := new Channel();
      channels := channels + [ch];
    }

    /** The cleanup function Subscribe returns: drop the first occurrence, if any. */
    method Unsubscribe(ch: Channel)
      requires Valid()
      modifies this`channels
      ensures Valid() && ch !in channels
      ensures channels == Without(old(channels), ch)
    {
      for i := 0 to |channels|
        invariant channels == old(channels) && ch !in channels[..i]
      {
        if channels[i] == ch {
          WithoutSplit(channels, ch, i);
          channels := channels[..i] + channels[i + 1..];
          return;
        }
      }
      WithoutAbsent(channels, ch);
    }

    /** Take the notification, if there is one. */
    method Receive(ch: Channel) returns (ok: bool)
      modifies ch
      ensures ok == old(ch.full) && !ch.full
    {
      ok := ch.full;
      ch.full := false;
    }
  }

  lemma {:induction false} WithoutSplit<T>(s: seq<T>, c: T, i: nat)
    requires i < |s| && s[i] == c && c !in s[..i]
    ensures Without(s, c) == s[..i] + s[i + 1..]
  {
    if i > 0 {
      assert s[0] in s[..i];
      assert s[1..][..i - 1] == s[1..i];
      forall x | x in s[1..][..i - 1] ensures x in s[..i] {
      }
      WithoutSplit(s[1..], c, i - 1);
      assert s[..i] == [s[0]] + s[1..][..i - 1];
      assert s[1..][i..] == s[i + 1..];
    }
  }

  lemma {:induction false} WithoutAbsent<T>(s: seq<T>, c: T)
    requires c !in s
    ensures Without(s, c) == s
  {
    if s != [] {
      WithoutAbsent(s[1..], c);
    }
  }
}
