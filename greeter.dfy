/** The members-added handler: one fixed welcome message for every member
    who joined, except the bot itself. */
module Greeter {

  import opened Wrappers
  import opened Channel

  /** The welcome text, a template literal spanning three source lines: the
      line breaks and the indentation of the two continuation lines are part
      of it. */
  const WelcomeText :=
    "Hello! I am the Contoso Dentistry Virtual Assistant! \n"
    + "                            Try asking me for available appointment slots, or book an appointment! \n"
    + "                            I can also answer some of your questions "

  /** `MessageFactory.text(welcomeText, welcomeText)`: shown and spoken. */
  const WelcomeActivity := Activity(WelcomeText, Some(WelcomeText))

  /** The joined members other than the bot (`selfId`), in joining order. */
  function Greeted(members: seq<ChannelAccount>, selfId: string): seq<ChannelAccount>
  {
    if |members| == 0 then []
    else
      var last := members[|members| - 1];
      Greeted(members[..|members| - 1], selfId) + (if last.id != selfId then [last] else [])
  }

  /** The messages sent for one join event: one welcome per greeted member. */
  function Greetings(members: seq<ChannelAccount>, selfId: string): seq<Activity>
  {
    seq(|Greeted(members, selfId)|, _ => WelcomeActivity)
  }

  /** The handler's loop over the joined members. */
  method OnMembersAdded(membersAdded: seq<ChannelAccount>, recipient: ChannelAccount)
    returns (sent: seq<Activity>)
    ensures sent == Greetings(membersAdded, recipient.id)
  {
    sent := [];
    var cnt := 0;
    while cnt < |membersAdded|
      invariant 0 <= cnt <= |membersAdded|
      invariant sent == Greetings(membersAdded[..cnt], recipient.id)
    {
      assert membersAdded[..cnt + 1][..cnt] == membersAdded[..cnt];
      if membersAdded[cnt].id != recipient.id {
        sent := sent + [WelcomeActivity];
      }
      cnt := cnt + 1;
    }
    assert membersAdded[..cnt] == membersAdded;
  }

  /** Exactly the members whose id differs from the bot's are greeted. */
  lemma {:induction false} GreetedMembers(members: seq<ChannelAccount>, selfId: string, x: ChannelAccount)
    ensures x in Greeted(members, selfId) <==> x in members && x.id != selfId
    decreases |members|
  {
    if |members| > 0 {
      var init := members[..|members| - 1];
      GreetedMembers(init, selfId, x);
      assert members == init + [members[|members| - 1]];
    }
  }

  /** Greeting keeps the joining order: the members of a longer list are
      greeted after those of its prefix. */
  lemma {:induction false} GreetedAppend(a: seq<ChannelAccount>, b: seq<ChannelAccount>, selfId: string)
    ensures Greeted(a + b, selfId) == Greeted(a, selfId) + Greeted(b, selfId)
    decreases |b|
  {
    if |b| == 0 {
      assert a + b == a;
    } else {
      var init := b[..|b| - 1];
      GreetedAppend(a, init, selfId);
      assert (a + b)[..|a + b| - 1] == a + init;
    }
  }

  /** The number of welcome messages is the number of joined members whose
      id differs from the bot's, and each of them is the welcome message. */
  lemma {:induction false} GreetingCount(members: seq<ChannelAccount>, selfId: string)
    ensures |Greetings(members, selfId)| == |set i | 0 <= i < |members| && members[i].id != selfId|
    ensures forall k :: 0 <= k < |Greetings(members, selfId)| ==> Greetings(members, selfId)[k] == WelcomeActivity
    decreases |members|
  {
    if |members| > 0 {
      var n := |members| - 1;
      var init := members[..n];
      GreetingCount(init, selfId);
      var before := set i | 0 <= i < n && init[i].id != selfId;
      var all := set i | 0 <= i < |members| && members[i].id != selfId;
      if members[n].id != selfId {
        assert all == before + {n};
        assert n !in before;
      } else {
        assert all == before;
      }
    }
  }

  /** The handler keeps no memory between events: two join events send what
      one event with both lists sends. */
  lemma TwoJoinsAsOne(a: seq<ChannelAccount>, b: seq<ChannelAccount>, selfId: string)
    ensures Greetings(a, selfId) + Greetings(b, selfId) == Greetings(a + b, selfId)
  {
    GreetedAppend(a, b, selfId);
  }
}
