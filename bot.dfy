/** The bot object: the user manager's maps and logs as fields, updated in place by
    `OnMessage`, which is proved to do what `Router.Step` says (bot.py:140-239). */
module Bot {
  import opened Wrappers
  import Text
  import opened Router

  class DiscordBot {
    // The user manager's stores (bot.py:149): profiles and state records keyed by user id,
    // the conversation log and the mood journal.
    var profiles: map<UserId, Profile>
    var states: map<UserId, UserState>
    var conversation: seq<Exchange>
    var journal: seq<MoodEntry>

    /** The stores as one value, the way `Router.Step` sees them. */
    function Snapshot(): World
      reads this
    {
      World(profiles, states, conversation, journal)
    }

    /** No user has both awaiting-flags set. */
    predicate Valid()
      reads this
    {
      AllConsistent(states)
    }

    /** A bot with empty stores (bot.py:141-151). */
    constructor()
      ensures Valid()
      ensures Snapshot() == World(map[], map[], [], [])
    {
      profiles, states := map[], map[];
      conversation, journal := [], [];
    }

    /** The end of onboarding: the profile is stored and the user's state record starts with
        a zero count and both flags clear. This stands in for the onboarding manager, whose
        code is not part of this model. */
    method Enroll(user: UserId, profile: Profile)
      modifies this
      ensures profiles == old(profiles)[user := profile]
      ensures states == old(states)[user := FreshState]
      ensures conversation == old(conversation) && journal == old(journal)
      ensures old(Valid()) ==> Valid()
    {
      profiles := profiles[user := profile];
      states := states[user := FreshState];
    }

    /** `increment_message_count(user_id)`: bumps the user's counter and returns the new value. */
    method IncrementMessageCount(user: UserId) returns (count: nat)
      requires user in states
      modifies this
      ensures count == old(states[user].messageCount) + 1
      ensures states == old(states)[user := old(states[user]).(messageCount := count)]
      ensures profiles == old(profiles) && conversation == old(conversation) && journal == old(journal)
    {
      count := states[user].messageCount + 1;
      states := states[user := states[user].(messageCount := count)];
    }

    /** `on_message`: routes one inbound message through the priority chain and updates the
        stores in place. */
    method OnMessage(author: UserId, text: string, fromSelfOrBot: bool, oracle: Oracle) returns (reply: Reply)
      modifies this
      ensures Outcome(Snapshot(), reply) == Step(old(Snapshot()), Message(author, text, fromSelfOrBot), oracle)
      ensures old(Valid()) ==> Valid()
    {
      ghost var before := Snapshot();
      forall u | u in before.states
        ensures var after := Step(before, Message(author, text, fromSelfOrBot), oracle).after;
          u in after.states && (before.states[u].Consistent() ==> after.states[u].Consistent())
      {
        StepPerUser(before, Message(author, text, fromSelfOrBot), oracle, u);
      }
      // Own messages, other bots' messages and commands.
      if fromSelfOrBot || Text.IsCommand(text) {
        return Ignored;
      }
      if oracle.needsOnboarding {
        return Onboarding;
      }
      if author !in states {
        return NoUserState;
      }
      var state := states[author];

      if state.awaitingMoodJournal {
        if Text.IsJournalConfirm(text) {
          if oracle.mood.None? {
            return CallFailed;
          }
          var mood := oracle.mood.value;
          if author !in profiles {
            return NoProfile;
          }
          var profile := profiles[author];
          if oracle.synthesis.None? {
            return CallFailed;
          }
          var synthesis := oracle.synthesis.value;
          journal := journal + [MoodEntry(author, mood, synthesis)];
          var negative := Text.IsNegativeMood(mood);
          // Both prompts set the exercise flag.
          state := state.(awaitingExerciseDecision := true);
          state := state.(awaitingMoodJournal := false);
          states := states[author := state];
          reply := JournalLogged(profile.name, profile.age, profile.location, mood, synthesis, negative);
        } else {
          reply := NoAction;
        }
        return;
      } else if state.awaitingExerciseDecision {
        reply := if Text.IsExerciseConfirm(text) then ExerciseMenu else NoProblem;
        states := states[author := state.(awaitingExerciseDecision := false)];
        return;
      }

      // Normal conversation flow.
      var count := IncrementMessageCount(author);
      state := states[author];
      if count % 3 == 0 {
        states := states[author := state.(awaitingMoodJournal := true, awaitingExerciseDecision := false)];
        return JournalOffer;
      }
      if oracle.therapyReply.None? {
        return TherapyFailed;
      }
      var response := oracle.therapyReply.value;
      conversation := conversation + [Exchange(author, text, response)];
      reply := Therapy(response);
    }
  }

  /** A client: a new user is enrolled and sends three ordinary messages; the first two get
      the therapy reply and are logged, the third brings the journaling offer instead. A
      command in between is ignored, and "YeS" logs the mood and leaves the exercise question
      pending. */
  method Session(u: UserId, t1: string, t2: string, t3: string, command: string)
    requires !Text.IsCommand(t1) && !Text.IsCommand(t2) && !Text.IsCommand(t3) && Text.IsCommand(command)
  {
    var bot := new DiscordBot();
    bot.Enroll(u, Profile(Some("Sophie"), Some(20), Some("New York City, NY")));
    var o := Oracle(false, Some("Stressed"), Some("Work has been hard."), Some("That sounds overwhelming."));
    var r := bot.OnMessage(u, t1, false, o);
    assert r == Therapy("That sounds overwhelming.");
    r := bot.OnMessage(u, t2, false, o);
    r := bot.OnMessage(u, t3, false, o);
    assert r == JournalOffer;
    assert bot.states[u] == UserState(3, true, false);
    assert |bot.conversation| == 2 && bot.journal == [];
    r := bot.OnMessage(u, command, false, o);
    assert r == Ignored;
    Text.YesAnswersBoth();
    r := bot.OnMessage(u, "YeS", false, o);
    assert r.JournalLogged? && r.negativePrompt;
    assert bot.journal == [MoodEntry(u, "Stressed", "Work has been hard.")];
    assert bot.states[u] == UserState(3, false, true);
  }
}
