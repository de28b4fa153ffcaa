/** The per-user conversation router of `DiscordBot.on_message` (bot.py:171-239), as a
    function from the stored state and one inbound message to the new state and the reply.

    The answers of collaborators whose code is not part of this model (the onboarding
    gate, mood classification, conversation synthesis, the therapy responder) enter as an
    `Oracle` value, one per turn. */
module Router {
  import opened Wrappers
  import Text

  /** `str(message.author.id)` (bot.py:183). */
  type UserId = string

  /** A user's profile record; `profile.get(...)` yields None for a field that is not there. */
  datatype Profile = Profile(name: Option<string>, age: Option<int>, location: Option<string>)

  /** A user's state record; a missing flag key reads as false (`state.get(..., False)`). */
  datatype UserState = UserState(messageCount: nat, awaitingMoodJournal: bool, awaitingExerciseDecision: bool)
  {
    /** The two awaiting-flags are never set together. */
    predicate Consistent()
    {
      !(awaitingMoodJournal && awaitingExerciseDecision)
    }
  }

  /** The state of a user who has just finished onboarding. */
  const FreshState: UserState := UserState(0, false, false)

  /** One completed exchange of the conversation log (`add_to_conversation`, bot.py:239). */
  datatype Exchange = Exchange(user: UserId, userText: string, botText: string)

  /** One mood journal entry (`log_mood(user_id, mood, synthesis)`, bot.py:204). */
  datatype MoodEntry = MoodEntry(user: UserId, mood: string, synthesis: string)

  /** An inbound message: its author, its text, and whether it comes from this bot or any other bot. */
  datatype Message = Message(author: UserId, text: string, fromSelfOrBot: bool)

  /** What the collaborators answer on this turn: `needs_onboarding(user_id)`, `get_mood`,
      `summarize_conversation` and `therapy_agent.run`. None stands for a call that raised
      instead of answering; the exception then ends the turn. */
  datatype Oracle = Oracle(needsOnboarding: bool, mood: Option<string>, synthesis: Option<string>,
                           therapyReply: Option<string>)

  /** What the turn replies, one alternative per exit of the routing chain. */
  datatype Reply =
    | Ignored          // own/bot message or command (bot.py:175-180)
    | Onboarding       // handed to the onboarding manager (bot.py:186-188)
    | NoUserState      // `user_states[user_id]` raises KeyError (bot.py:192)
    | NoProfile        // `user_profiles[user_id]` raises KeyError (bot.py:198)
    | CallFailed       // `get_mood` or `summarize_conversation` raised (bot.py:197, 199)
    | JournalLogged(name: Option<string>, age: Option<int>, location: Option<string>,
                    mood: string, synthesis: string, negativePrompt: bool)  // bot.py:204-215
    | NoAction         // journaling offer pending, answer not affirmative (bot.py:216)
    | ExerciseMenu     // bot.py:219-220
    | NoProblem        // bot.py:221-222
    | JournalOffer     // every third normal message (bot.py:229-233)
    | Therapy(text: string)  // bot.py:235-239
    | TherapyFailed    // `therapy_agent.run` raised, after the counter was bumped (bot.py:235)
  {
    /** The turns that went through the normal conversation flow and bumped the counter. */
    predicate NormalFlow()
    {
      JournalOffer? || Therapy? || TherapyFailed?
    }
  }

  /** Everything the router reads and writes: the user manager's profile and state maps,
      the conversation log and the mood journal. */
  datatype World = World(profiles: map<UserId, Profile>, states: map<UserId, UserState>,
                         conversation: seq<Exchange>, journal: seq<MoodEntry>)

  datatype Outcome = Outcome(after: World, reply: Reply)

  predicate AllConsistent(states: map<UserId, UserState>)
  {
    forall u :: u in states ==> states[u].Consistent()
  }

  predicate Ignores(m: Message)
  {
    m.fromSelfOrBot || Text.IsCommand(m.text)
  }

  /** One call of `on_message`. The onboarding manager's own writes are not part of this
      function: a turn handed to onboarding leaves the stores as they were. */
  function Step(w: World, m: Message, o: Oracle): (out: Outcome)
    // `on_message` itself changes no profile and adds or removes no user.
    ensures out.after.profiles == w.profiles
    ensures out.after.states.Keys == w.states.Keys
    // The conversation log grows by the exchange exactly on a therapy turn, and the journal
    // by the entry exactly on a logging turn; both are append-only.
    ensures out.after.conversation ==
      w.conversation + (if out.reply.Therapy? then [Exchange(m.author, m.text, out.reply.text)] else [])
    ensures out.after.journal ==
      w.journal + (if out.reply.JournalLogged? then [MoodEntry(m.author, out.reply.mood, out.reply.synthesis)] else [])
    // The periodic offer comes on multiples of three, the therapy reply on the other counts.
    ensures out.reply.JournalOffer? ==> m.author in w.states && out.after.states[m.author].messageCount % 3 == 0
    ensures out.reply.Therapy? || out.reply.TherapyFailed? ==>
      m.author in w.states && out.after.states[m.author].messageCount % 3 != 0
  {
    if Ignores(m) then Outcome(w, Ignored)
    else if o.needsOnboarding then Outcome(w, Onboarding)
    else if m.author !in w.states then Outcome(w, NoUserState)
    else
      var s := w.states[m.author];
      if s.awaitingMoodJournal then
        if !Text.IsJournalConfirm(m.text) then Outcome(w, NoAction)
        else if o.mood.None? then Outcome(w, CallFailed)
        else if m.author !in w.profiles then Outcome(w, NoProfile)
        else if o.synthesis.None? then Outcome(w, CallFailed)
        else
          var p := w.profiles[m.author];
          var mood, synthesis := o.mood.value, o.synthesis.value;
          Outcome(w.(states := w.states[m.author := s.(awaitingExerciseDecision := true, awaitingMoodJournal := false)],
                     journal := w.journal + [MoodEntry(m.author, mood, synthesis)]),
                  JournalLogged(p.name, p.age, p.location, mood, synthesis, Text.IsNegativeMood(mood)))
      else if s.awaitingExerciseDecision then
        Outcome(w.(states := w.states[m.author := s.(awaitingExerciseDecision := false)]),
                if Text.IsExerciseConfirm(m.text) then ExerciseMenu else NoProblem)
      else
        var n := s.messageCount + 1;
        if n % 3 == 0 then
          Outcome(w.(states := w.states[m.author := s.(messageCount := n, awaitingMoodJournal := true, awaitingExerciseDecision := false)]),
                  JournalOffer)
        else if o.therapyReply.None? then
          Outcome(w.(states := w.states[m.author := s.(messageCount := n)]), TherapyFailed)
        else
          Outcome(w.(states := w.states[m.author := s.(messageCount := n)],
                     conversation := w.conversation + [Exchange(m.author, m.text, o.therapyReply.value)]),
                  Therapy(o.therapyReply.value))
  }

  // ---------------------------------------------------------------------------
  // The branches of one turn

  /** What one turn does to the state record of any user `u`: another user's record is left
      alone, the flag invariant is kept, and the counter moves by one exactly on a
      normal-flow turn of its own user. */
  lemma StepPerUser(w: World, m: Message, o: Oracle, u: UserId)
    requires u in w.states
    ensures var out := Step(w, m, o);
      && u in out.after.states
      && (u != m.author ==> out.after.states[u] == w.states[u])
      && (w.states[u].Consistent() ==> out.after.states[u].Consistent())
      && out.after.states[u].messageCount
         == w.states[u].messageCount + (if u == m.author && out.reply.NormalFlow() then 1 else 0)
  {
  }

  /** Own and other bots' messages and commands change nothing and get no routed reply. */
  lemma IgnoredTurn(w: World, m: Message, o: Oracle)
    requires m.fromSelfOrBot || Text.IsCommand(m.text)
    ensures Step(w, m, o) == Outcome(w, Ignored)
  {
  }

  /** While onboarding is needed the turn belongs wholly to onboarding: nothing here changes. */
  lemma OnboardingTurn(w: World, m: Message, o: Oracle)
    requires !Ignores(m) && o.needsOnboarding
    ensures Step(w, m, o) == Outcome(w, Onboarding)
  {
  }

  /** A user who passed the gate without a state record makes the turn fail with nothing changed. */
  lemma MissingStateTurn(w: World, m: Message, o: Oracle)
    requires !Ignores(m) && !o.needsOnboarding && m.author !in w.states
    ensures Step(w, m, o) == Outcome(w, NoUserState)
  {
  }

  /** An affirmative answer to a pending journaling offer logs exactly one entry, clears the
      journaling flag and sets the exercise flag whatever the mood; the yes/no question is
      chosen exactly for the negative moods. */
  lemma JournalConfirmedTurn(w: World, m: Message, o: Oracle)
    requires !Ignores(m) && !o.needsOnboarding && m.author in w.states
    requires w.states[m.author].awaitingMoodJournal && Text.IsJournalConfirm(m.text)
    requires m.author in w.profiles && o.mood.Some? && o.synthesis.Some?
    ensures var out := Step(w, m, o);
      var s := w.states[m.author];
      var p := w.profiles[m.author];
      && out.after.states == w.states[m.author := UserState(s.messageCount, false, true)]
      && out.after.journal == w.journal + [MoodEntry(m.author, o.mood.value, o.synthesis.value)]
      && out.after.conversation == w.conversation
      && out.reply == JournalLogged(p.name, p.age, p.location, o.mood.value, o.synthesis.value, out.reply.negativePrompt)
      && (out.reply.negativePrompt <==> o.mood.value in ["Sad", "Stressed", "Anxious", "Frustrated", "Angry"])
  {
  }

  /** An affirmative answer from a user without a profile record fails with nothing changed;
      the mood has been asked for first, so this needs the mood call to have answered. */
  lemma JournalConfirmedNoProfileTurn(w: World, m: Message, o: Oracle)
    requires !Ignores(m) && !o.needsOnboarding && m.author in w.states
    requires w.states[m.author].awaitingMoodJournal && Text.IsJournalConfirm(m.text)
    requires o.mood.Some? && m.author !in w.profiles
    ensures Step(w, m, o) == Outcome(w, NoProfile)
  {
  }

  /** If mood classification or synthesis raises after an affirmative answer, nothing is
      logged and both flags stay as they were, so the offer is still pending. */
  lemma JournalCallFailedTurn(w: World, m: Message, o: Oracle)
    requires !Ignores(m) && !o.needsOnboarding && m.author in w.states
    requires w.states[m.author].awaitingMoodJournal && Text.IsJournalConfirm(m.text)
    requires o.mood.None? || (m.author in w.profiles && o.synthesis.None?)
    ensures Step(w, m, o) == Outcome(w, CallFailed)
  {
  }

  /** Any other answer to a pending journaling offer leaves everything, the flags included, as it was. */
  lemma JournalDeclinedTurn(w: World, m: Message, o: Oracle)
    requires !Ignores(m) && !o.needsOnboarding && m.author in w.states
    requires w.states[m.author].awaitingMoodJournal && !Text.IsJournalConfirm(m.text)
    ensures Step(w, m, o) == Outcome(w, NoAction)
  {
  }

  /** A pending exercise decision is always cleared; the menu comes exactly on "yes" or
      "exercises"; the counter and both logs stay as they were. */
  lemma ExerciseDecisionTurn(w: World, m: Message, o: Oracle)
    requires !Ignores(m) && !o.needsOnboarding && m.author in w.states
    requires !w.states[m.author].awaitingMoodJournal && w.states[m.author].awaitingExerciseDecision
    ensures var out := Step(w, m, o);
      var s := w.states[m.author];
      && out.after == w.(states := w.states[m.author := UserState(s.messageCount, false, false)])
      && (out.reply == ExerciseMenu <==> Text.IsExerciseConfirm(m.text))
      && (out.reply == NoProblem <==> !Text.IsExerciseConfirm(m.text))
  {
  }

  /** In the normal flow the counter rises by one; on a multiple of three the journaling
      offer is made (journal flag set, exercise flag cleared, no log entry), otherwise the
      therapy reply is given and the exchange appended, with the flags left clear; if the
      therapy responder raises, the raised counter stays and nothing is appended. */
  lemma NormalTurn(w: World, m: Message, o: Oracle)
    requires !Ignores(m) && !o.needsOnboarding && m.author in w.states
    requires !w.states[m.author].awaitingMoodJournal && !w.states[m.author].awaitingExerciseDecision
    ensures var out := Step(w, m, o);
      var n := w.states[m.author].messageCount + 1;
      && out.after.journal == w.journal
      && (n % 3 == 0 ==>
            && out.after.states == w.states[m.author := UserState(n, true, false)]
            && out.after.conversation == w.conversation
            && out.reply == JournalOffer)
      && (n % 3 != 0 ==> out.after.states == w.states[m.author := UserState(n, false, false)])
      && (n % 3 != 0 && o.therapyReply.Some? ==>
            && out.after.conversation == w.conversation + [Exchange(m.author, m.text, o.therapyReply.value)]
            && out.reply == Therapy(o.therapyReply.value))
      && (n % 3 != 0 && o.therapyReply.None? ==>
            && out.after.conversation == w.conversation
            && out.reply == TherapyFailed)
  {
  }

  /** The priority chain: a pending journaling offer takes precedence over a pending exercise
      decision, so at most one pending branch acts per turn, and neither reaches the normal flow. */
  lemma PendingBranchesExclusive(w: World, m: Message, o: Oracle)
    requires !Ignores(m) && !o.needsOnboarding && m.author in w.states
    requires w.states[m.author].awaitingMoodJournal || w.states[m.author].awaitingExerciseDecision
    ensures var r := Step(w, m, o).reply;
      && !r.NormalFlow()
      && (w.states[m.author].awaitingMoodJournal ==> r.JournalLogged? || r.NoAction? || r.NoProfile? || r.CallFailed?)
      && (!w.states[m.author].awaitingMoodJournal ==> r.ExerciseMenu? || r.NoProblem?)
  {
  }

  // ---------------------------------------------------------------------------
  // Many turns

  datatype Input = Input(message: Message, oracle: Oracle)

  /** The turns `ins` handled one after another, with the replies in order. */
  function Run(w: World, ins: seq<Input>): (out: (World, seq<Reply>))
    ensures |out.1| == |ins|
    decreases |ins|
  {
    if ins == [] then (w, [])
    else
      var first := Step(w, ins[0].message, ins[0].oracle);
      var rest := Run(first.after, ins[1..]);
      (rest.0, [first.reply] + rest.1)
  }

  /** The number of therapy replies among `rs`. */
  function TherapyCount(rs: seq<Reply>): nat
  {
    if rs == [] then 0 else (if rs[0].Therapy? then 1 else 0) + TherapyCount(rs[1..])
  }

  /** The number of journal logging replies among `rs`. */
  function LoggedCount(rs: seq<Reply>): nat
  {
    if rs == [] then 0 else (if rs[0].JournalLogged? then 1 else 0) + LoggedCount(rs[1..])
  }

  /** The number of turns of user `u` that went through the normal flow. */
  function NormalCount(u: UserId, ins: seq<Input>, rs: seq<Reply>): nat
    requires |rs| == |ins|
  {
    if ins == [] then 0
    else (if ins[0].message.author == u && rs[0].NormalFlow() then 1 else 0) + NormalCount(u, ins[1..], rs[1..])
  }

  /** The number of journaling offers made to user `u`. */
  function OfferCount(u: UserId, ins: seq<Input>, rs: seq<Reply>): nat
    requires |rs| == |ins|
  {
    if ins == [] then 0
    else (if ins[0].message.author == u && rs[0].JournalOffer? then 1 else 0) + OfferCount(u, ins[1..], rs[1..])
  }

  /** A user whose flags are not both set never gets them both set, however many turns follow. */
  lemma {:induction false} RunKeepsConsistent(w: World, ins: seq<Input>, u: UserId)
    requires u in w.states && w.states[u].Consistent()
    ensures u in Run(w, ins).0.states && Run(w, ins).0.states[u].Consistent()
    decreases |ins|
  {
    if ins != [] {
      StepPerUser(w, ins[0].message, ins[0].oracle, u);
      RunKeepsConsistent(Step(w, ins[0].message, ins[0].oracle).after, ins[1..], u);
    }
  }

  /** Turns past the onboarding gate add and remove no users and never touch a profile. */
  lemma {:induction false} RunKeepsUsers(w: World, ins: seq<Input>)
    ensures Run(w, ins).0.states.Keys == w.states.Keys
    ensures Run(w, ins).0.profiles == w.profiles
    decreases |ins|
  {
    if ins != [] {
      RunKeepsUsers(Step(w, ins[0].message, ins[0].oracle).after, ins[1..]);
    }
  }

  /** Both logs are append-only: the conversation log grows by one entry per therapy reply
      and the mood journal by one entry per logging reply. */
  lemma {:induction false} RunAppendOnly(w: World, ins: seq<Input>)
    ensures var (w', rs) := Run(w, ins);
      && w.conversation <= w'.conversation
      && |w'.conversation| == |w.conversation| + TherapyCount(rs)
      && w.journal <= w'.journal
      && |w'.journal| == |w.journal| + LoggedCount(rs)
    decreases |ins|
  {
    if ins != [] {
      var first := Step(w, ins[0].message, ins[0].oracle);
      RunAppendOnly(first.after, ins[1..]);
      var rs := Run(w, ins).1;
      assert rs[1..] == Run(first.after, ins[1..]).1;
    }
  }

  /** A user's counter rises by exactly the number of that user's normal-flow turns. */
  lemma {:induction false} RunCountsNormalTurns(w: World, ins: seq<Input>, u: UserId)
    requires u in w.states
    ensures var (w', rs) := Run(w, ins);
      u in w'.states && w'.states[u].messageCount == w.states[u].messageCount + NormalCount(u, ins, rs)
    decreases |ins|
  {
    if ins != [] {
      var first := Step(w, ins[0].message, ins[0].oracle);
      StepPerUser(w, ins[0].message, ins[0].oracle, u);
      RunCountsNormalTurns(first.after, ins[1..], u);
      var rs := Run(w, ins).1;
      assert rs[1..] == Run(first.after, ins[1..]).1;
    }
  }

  lemma ThirdsStep(c: nat)
    ensures (c + 1) / 3 == c / 3 + (if (c + 1) % 3 == 0 then 1 else 0)
  {
  }

  /** The journaling offer comes on every third message: the offers made to a user are
      exactly the multiples of three that the user's counter passes. */
  lemma {:induction false} RunOffersEveryThird(w: World, ins: seq<Input>, u: UserId)
    requires u in w.states
    ensures var (w', rs) := Run(w, ins);
      u in w'.states && OfferCount(u, ins, rs) == w'.states[u].messageCount / 3 - w.states[u].messageCount / 3
    decreases |ins|
  {
    if ins != [] {
      var first := Step(w, ins[0].message, ins[0].oracle);
      StepPerUser(w, ins[0].message, ins[0].oracle, u);
      RunOffersEveryThird(first.after, ins[1..], u);
      var rs := Run(w, ins).1;
      assert rs[1..] == Run(first.after, ins[1..]).1;
      ThirdsStep(w.states[u].messageCount);
    }
  }

  /** Running a first turn and then the rest is running them all. */
  lemma RunCons(w: World, first: Input, rest: seq<Input>)
    ensures var s := Step(w, first.message, first.oracle);
      Run(w, [first] + rest) == (Run(s.after, rest).0, [s.reply] + Run(s.after, rest).1)
  {
    assert ([first] + rest)[1..] == rest;
  }

  /** Three turns in a row, spelled out. */
  lemma RunThree(w: World, i1: Input, i2: Input, i3: Input)
    ensures var s1 := Step(w, i1.message, i1.oracle);
      var s2 := Step(s1.after, i2.message, i2.oracle);
      var s3 := Step(s2.after, i3.message, i3.oracle);
      Run(w, [i1, i2, i3]) == (s3.after, [s1.reply, s2.reply, s3.reply])
  {
    var s1 := Step(w, i1.message, i1.oracle);
    var s2 := Step(s1.after, i2.message, i2.oracle);
    var s3 := Step(s2.after, i3.message, i3.oracle);
    RunCons(s2.after, i3, []);
    assert [i3] + [] == [i3] && [s3.reply] + [] == [s3.reply];
    RunCons(s1.after, i2, [i3]);
    assert [i2] + [i3] == [i2, i3] && [s2.reply] + [s3.reply] == [s2.reply, s3.reply];
    RunCons(w, i1, [i2, i3]);
    assert [i1] + [i2, i3] == [i1, i2, i3];
    assert [s1.reply] + [s2.reply, s3.reply] == [s1.reply, s2.reply, s3.reply];
  }

  /** A user fresh from onboarding who sends three ordinary messages gets two therapy
      replies, both logged, and then the journaling offer, which is not logged. */
  lemma ThirdMessageOffersJournal(w: World, u: UserId, t1: string, t2: string, t3: string, o: Oracle)
    requires u in w.states && w.states[u] == FreshState
    requires !Text.IsCommand(t1) && !Text.IsCommand(t2) && !Text.IsCommand(t3)
    requires !o.needsOnboarding && o.therapyReply.Some?
    ensures var ins := [Input(Message(u, t1, false), o), Input(Message(u, t2, false), o), Input(Message(u, t3, false), o)];
      var (w', rs) := Run(w, ins);
      && rs == [Therapy(o.therapyReply.value), Therapy(o.therapyReply.value), JournalOffer]
      && w'.states == w.states[u := UserState(3, true, false)]
      && w'.conversation == w.conversation + [Exchange(u, t1, o.therapyReply.value), Exchange(u, t2, o.therapyReply.value)]
      && w'.journal == w.journal
  {
    var i1, i2, i3 := Input(Message(u, t1, false), o), Input(Message(u, t2, false), o), Input(Message(u, t3, false), o);
    var c1 := w.conversation + [Exchange(u, t1, o.therapyReply.value)];
    var c2 := c1 + [Exchange(u, t2, o.therapyReply.value)];
    var w1 := w.(states := w.states[u := UserState(1, false, false)], conversation := c1);
    var w2 := w1.(states := w1.states[u := UserState(2, false, false)], conversation := c2);
    var w3 := w2.(states := w2.states[u := UserState(3, true, false)]);
    assert Run(w, [i1, i2, i3]) == (w3, [Therapy(o.therapyReply.value), Therapy(o.therapyReply.value), JournalOffer]) by {
      assert Step(w, i1.message, o) == Outcome(w1, Therapy(o.therapyReply.value)) by {
        NormalTurn(w, i1.message, o);
      }
      assert Step(w1, i2.message, o) == Outcome(w2, Therapy(o.therapyReply.value)) by {
        NormalTurn(w1, i2.message, o);
      }
      assert Step(w2, i3.message, o) == Outcome(w3, JournalOffer) by {
        NormalTurn(w2, i3.message, o);
      }
      RunThree(w, i1, i2, i3);
    }
    assert w3.states == w.states[u := UserState(3, true, false)];
    assert c2 == w.conversation + [Exchange(u, t1, o.therapyReply.value), Exchange(u, t2, o.therapyReply.value)];
  }
}
