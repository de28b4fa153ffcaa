# Conversation router of a supportive chat bot

This project models the per-user conversation router of a Discord companion bot
(`DiscordBot.on_message` in `bot.py`). Every inbound message goes through a fixed priority
chain:

1. messages from the bot itself, from other bots, or starting with `!` are ignored;
2. a user who still needs onboarding is handed to the onboarding manager;
3. a pending journaling offer is answered: "yes"/"y" (any case) classifies the mood,
   synthesises the conversation, appends a mood journal entry, clears the journaling flag
   and sets the exercise-decision flag; any other answer changes nothing;
4. a pending exercise decision is answered: "yes"/"exercises" (any case) shows the
   exercise menu, anything else a friendly close; the flag is cleared either way;
5. otherwise the user's message counter is bumped; on every multiple of three the
   journaling offer is made (journal flag set, exercise flag cleared), on the other counts
   the therapy responder's reply is sent and the exchange appended to the conversation log.

The model has four modules:

- `Wrappers`: an `Option` type.
- `Text`: `str.lower()`, the `!` command prefix, the two fixed lists of affirmative
  answers, the list of negative moods, and a reference definition of case-insensitive
  spelling against which the answer tests are proved.
- `Router`: the stored state as values (`Profile`, `UserState`, `Exchange`, `MoodEntry`,
  `World`), the reply of each exit of the chain (`Reply`), one turn as the function `Step`,
  many turns as `Run`, and the lemmas about them.
- `Bot`: the class `DiscordBot`, whose fields are the user manager's maps and the two logs.
  Its method `OnMessage` updates them in place with the same early-return chain as the
  source and is proved to produce exactly `Router.Step`'s new state and reply.
  `Session` is a client that enrols a user and walks through a journaling offer.

The answers of the collaborators whose code is not part of the model enter as an `Oracle`
value, one per turn:

- `needs_onboarding(user_id)` is a boolean;
- `get_mood`, `summarize_conversation` and `therapy_agent.run` are optional strings.

An absent string stands for a call that raised. The exception then ends the turn, and
whatever was already changed stays changed.

Where the router itself fails, the model returns a reply and changes nothing:

- `user_states[user_id]` (bot.py:192) raises `KeyError` for a user who passed the gate
  without a state record. The model replies `NoUserState`.
- `user_profiles[user_id]` (bot.py:198) raises `KeyError` after the mood has been fetched.
  The model replies `NoProfile`.

Two behaviours of the code are easy to miss:

- A pending journaling offer stays pending until it is answered with "yes" or "y". Every
  other message in between is swallowed with no reply, no counter change and no log entry
  (`JournalDeclinedTurn`).
- When the therapy responder raises, the counter has already been bumped, so the turn
  still counts towards the next journaling offer (`NormalTurn`, `TherapyFailed`).

`str.lower()` is modelled on ASCII capitals only. This is not exact for lower-casing in
general, but it is exact for the router's tests, which ask whether the lowered text is one of
"yes", "y" or "exercises". Python lower-cases a string character by character, and every
character lowers to at least one character. So the lowered text equals one of those words
only if each character of the text lowers to a piece of that word, made of ASCII small
letters. Under Unicode 15.0, exactly two non-ASCII characters lower to anything containing
ASCII:

- U+212A KELVIN SIGN lowers to `k`;
- U+0130 LATIN CAPITAL LETTER I WITH DOT ABOVE lowers to `i` followed by U+0307.

Neither `k` nor U+0307 occurs in any of the three words. A text that passes either test
under Python's `lower()` is therefore pure ASCII, and on ASCII the model agrees with Python.

## Model

| member | source | states |
|---|---|---|
| `Text.Lower` | bot.py:196 | lower-casing keeps the length and lower-cases each character in place |
| `Text.LowerEqualsIff` | bot.py:196 | the lowered text equals a small-letter word exactly when the text spells that word letter by letter, each letter in either case |
| `Text.JournalConfirmSpellings` | bot.py:196 | the journaling offer is accepted exactly by "yes" and "y" in any mix of cases |
| `Text.ExerciseConfirmSpellings` | bot.py:219 | the exercise question is accepted exactly by "yes" and "exercises" in any mix of cases |
| `Text.YesAnswersBoth` | bot.py:195-224 | "YeS" accepts both the journaling offer and the exercise question |
| `Text.YAnswersJournalOnly` | bot.py:195-224 | "Y" accepts the journaling offer but not the exercise question |
| `Text.PaddedYesAnswersNeither` | bot.py:195-224 | the text is not stripped: "yes " accepts neither question |
| `Router.Step` | bot.py:171-239 | one turn of `on_message`'s own code leaves profiles and the set of users unchanged; it appends the exchange to the conversation log exactly on a therapy reply and the entry to the journal exactly on a logging reply; the offer comes on counts divisible by 3 and the therapy turn on the others |
| `Router.StepPerUser` | bot.py:190-233 | another user's state record is untouched; a record without both flags set keeps that property; the counter rises by one exactly on a normal-flow turn of its own user |
| `Router.IgnoredTurn` | bot.py:174-180 | own messages, other bots' messages and `!` commands change no state and get the `Ignored` reply |
| `Router.OnboardingTurn` | bot.py:185-188 | while onboarding is needed the turn goes wholly to onboarding and no flag, count or log changes |
| `Router.MissingStateTurn` | bot.py:191-192 | a user without a state record makes the turn fail with nothing changed |
| `Router.JournalConfirmedTurn` | bot.py:195-216 | an affirmative answer to a pending offer appends exactly one journal entry (user, mood, synthesis), clears the journal flag and sets the exercise flag whatever the mood; the reply carries the profile fields, and the yes/no exercise question is chosen exactly when the mood is Sad, Stressed, Anxious, Frustrated or Angry |
| `Router.JournalConfirmedNoProfileTurn` | bot.py:196-198 | an affirmative answer from a user without a profile fails after the mood call, with nothing changed |
| `Router.JournalCallFailedTurn` | bot.py:196-204 | if mood classification or synthesis raises, nothing is logged and the offer stays pending |
| `Router.JournalDeclinedTurn` | bot.py:195-216 | any other answer to a pending offer changes nothing: flags, count and both logs stay as they were |
| `Router.ExerciseDecisionTurn` | bot.py:218-224 | a pending exercise decision is cleared whatever the answer; the menu is shown exactly on "yes"/"exercises" and the friendly close otherwise; count and logs are unchanged |
| `Router.NormalTurn` | bot.py:226-239 | the count rises by exactly one; on a multiple of 3 the journal flag is set, the exercise flag cleared and nothing appended; otherwise exactly one (text, reply) pair is appended and the flags stay clear; if the responder raises, the raised count stays and nothing is appended |
| `Router.PendingBranchesExclusive` | bot.py:195-224 | a pending journal offer takes precedence over a pending exercise decision, at most one of them acts per turn, and neither reaches the normal flow |
| `Router.RunKeepsConsistent` | bot.py:195-233 | over any number of turns, a user whose two flags are not both set never gets them both set |
| `Router.RunKeepsUsers` | bot.py:190-239 | no turn past the onboarding gate adds or removes a user or changes a profile, over any number of turns |
| `Router.RunAppendOnly` | bot.py:204-239 | over any number of turns both logs only grow at the end; the conversation log by one entry per therapy reply, the journal by one entry per logging reply |
| `Router.RunCountsNormalTurns` | bot.py:226-227 | a user's counter rises by exactly the number of that user's normal-flow turns |
| `Router.RunOffersEveryThird` | bot.py:227-233 | the number of journaling offers a user gets equals the number of multiples of 3 the user's counter passes |
| `Router.ThirdMessageOffersJournal` | bot.py:226-239 | a freshly onboarded user's first two ordinary messages get therapy replies and are logged; the third gets the journaling offer with nothing logged |
| `Bot.DiscordBot.constructor` | bot.py:141-151 | the bot starts with empty stores, in which no user has both flags set |
| `Bot.DiscordBot.Enroll` | bot.py:186-188 | stands in for the end of onboarding: the profile is stored and the state record starts at count 0 with both flags clear |
| `Bot.DiscordBot.IncrementMessageCount` | bot.py:227 | the user's counter rises by one, the new value is returned, nothing else changes |
| `Bot.DiscordBot.OnMessage` | bot.py:171-239 | the in-place update produces exactly the new stores and reply of `Router.Step` and keeps the rule that no user has both flags set |

## Left out

- Discord transport: `process_commands` (bot.py:172), delivery of `message.reply`, the
  feature buttons and their view (bot.py:33-138), `on_ready` and the presence (bot.py:155-169),
  and the `__main__` set-up with the `!menu` command (bot.py:243-264). These are I/O with no
  routing logic. Replies are modelled as tags carrying their data, not as the literal texts.
- The breathing countdown (bot.py:62-83): timed messages only.
- The gratitude prompt (bot.py:109-130): a random choice from a fixed table. The missing
  comma at bot.py:114 joins two prompts into one; this only affects content.
- `TherapyAgent` (agent.py:31-66): a thin wrapper around the completion service. Its reply
  is an oracle value. Its constructor and `run` take other arguments than bot.py passes
  (`TherapyAgent(self.user_manager)` at bot.py:150, `run(message, user_id)` at bot.py:235,
  against agent.py:32 and agent.py:36).
- `UserManager`, `OnboardingManager` and `ButtonManager` (imported at bot.py:12-14) are not
  part of this model. Their code is not available.
    - The onboarding stages are not modelled. The onboarding gate is an oracle boolean, and
      `Bot.DiscordBot.Enroll` stands in for the final transition.
    - Mood classification and synthesis are oracle strings.
    - `log_mood` is modelled as appending (user, mood, synthesis). Whatever else it stores,
      such as a timestamp or a copy of the profile, is not modelled.
    - `add_to_conversation` is modelled as appending (user, text, reply).
    - `increment_message_count` is modelled as "count + 1, return the new count".
- The conversation log and the mood journal are modelled as one sequence each, holding the
  entries of all users tagged with their user id. They are not per-user lists.
- A `message.reply` that raises: the model takes every reply as delivered. In the source,
  such an exception ends the turn early. After the mood-logged reply (bot.py:205) the flags
  would stay unchanged, and after the therapy reply (bot.py:237) the exchange would not be
  appended.
- Concurrency: two messages of one user interleaving across the awaits of one turn are not
  modelled. The model handles one turn at a time.
- `str.lower()` is modelled as ASCII lower-casing. This is exact for the router's tests, as
  explained above, but not for lower-casing in general.
- Router.Step: a turn handed to onboarding (bot.py:186-188) leaves all four stores unchanged
  in the model. In the program, `handle_onboarding` writes the profile and, at its last stage,
  creates the user's state record. That code is not part of this model; `Bot.DiscordBot.Enroll`
  stands in for its final write, outside `Step`. So `Router.Step`'s "profiles and users
  unchanged" and `Router.RunKeepsUsers` hold for `on_message`'s own code only.
