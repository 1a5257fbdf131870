# Anti-spam moderation bot: warning store and handler decisions

This project models, in Dafny, the core of a chat-moderation bot. The bot combines a spam verdict with
a per-user violation history. It warns spammers and deletes their messages, restricts repeat
offenders, and gives admins a log export and a ban/unban-by-target workflow.

The project has three modules:

- `Text` (text.dfy) holds the pieces of Python's runtime the bot relies on:
  - `str(n)` for integers and `int(s)` on store keys;
  - `sep.join`, hard slicing `s[:n]` and `str.strip`.
- `Warnings` (warnings.dfy) models `WarningManager` as a class.
  - The store is a `map` from the decimal user id to a `UserRecord`, with its keys kept in insertion order. A Python dict iterates in that order, and both the username lookup and the log export depend on it.
  - A ghost `saved` snapshot stands for the backing file.
  - The class invariant `Valid()` says the records form a dictionary and that the last snapshot written equals what is in memory, because every mutation ends with `_save`.
  - Each method is specified by a pure map update (`WithViolation`, `WithCountReset`, `WithBanFlag`). Lemmas state the properties of those updates.
- `Handlers` (handlers.dfy) models the decision logic of handlers.py with the chat transport stripped away.
  - Each handler returns the sequence of `Call`s it makes on the outside world: classifier, send, answer, delete, restrict, ban, unban, edit and callback answer.
  - Which calls raise is an input: a call raises exactly when it is a key of `failures`, with the exception's text as the value.
  - The classifier's verdict is an input too.
  - Each imperative handler (`FilterMessages`, `ProcessCallback`, `ProcessBanAction`) is proved equal to a pure reference function (`Moderate`, `LogsReply`, `BanAction`). The properties of the handler are stated on those functions.

Behaviour of the code worth noting:

- `filter_messages` tests `sender_chat` before the private-chat branch. A message posted on behalf of a chat in a private conversation therefore gets the rules or nothing, not the private reply.
- A target that does not start with `@` is looked up as a string key exactly as typed. It is not parsed as a number, so `"0123"` does not find key `"123"` (`LeadingZeroNeverResolves`).
- The store changes only after the platform ban/unban call succeeds. When that call raises, the store is left alone.
- The admin conversation is cleared only when the handler finishes. Three cases skip the clear:
  - the message has no text (`None.strip()` raises);
  - the "not found" reply raises;
  - the error report inside `except` raises.
- `get_logs` returns the live dictionary, not a copy.
- `ban_user` indexes the dictionary directly, so the record must exist. `BanUser` has that precondition, and the admin path models the `KeyError` that occurs when a loaded key is not in canonical form.

## Model

| member | source | states |
|---|---|---|
| Text.NatToString | warnings_.py:30 | decimal digits only, no leading zero, and a single digit exactly below ten |
| Text.IntToString | warnings_.py:30 | `str(n)` is never empty and begins with `-` exactly when `n` is negative |
| Text.IntToStringShape | warnings_.py:30 | `str(n)` is non-empty and starts with `-` exactly when `n` is negative; otherwise it is all digits |
| Text.DigitsValueOfNatToString | warnings_.py:30 | reading back the digits of `str(n)` gives `n` |
| Text.ParseInt | handlers.py:157 | `int(s)` succeeds exactly on a non-empty run of digits, optionally after one `-` or `+`; the value is that of the digits, negated after `-`; every other string raises |
| Text.ParseIntToString | handlers.py:157 | `int(str(n)) == n` for every integer |
| Text.IntToStringInjective | warnings_.py:30 | distinct user ids are stored under distinct keys |
| Text.RenderedIsCanonical | warnings_.py:30 | every key `str(user_id)` satisfies `str(int(k)) == k` |
| Text.LeadingZeroNotCanonical | handlers.py:151 | a digit string with a leading zero is never a key the program writes |
| Text.Join | handlers.py:127 | `sep.join(parts)` is empty for no parts; otherwise, with one `sep` in front, it is every part preceded by `sep`, in order |
| Text.Truncate | handlers.py:129 | the cut text is a prefix of the input, of length `min(len, limit)` |
| Text.LeadingSpaces | handlers.py:143 | counts exactly the white space run at the start: all of it is white space, and the next character is not |
| Text.TrailingSpaces | handlers.py:143 | counts exactly the white space run at the end: all of it is white space, and the character before it is not |
| Text.Strip | handlers.py:143 | the result is the slice of the input after its leading white space, with no white space at either end, and everything cut off after it is white space |
| Warnings.NameOrUnknown | warnings_.py:42 | the stored name is never empty: a non-empty name is kept and an empty one becomes `"unknown"` |
| Warnings.WithViolation | warnings_.py:39-46 | the key is added if missing; the count rises by exactly one; the message is appended; the name is updated; the ban flag and threshold are kept; other records are untouched |
| Warnings.FirstViolation | warnings_.py:41-44 | a first violation creates the record (name, not banned, [message], 1, standard threshold) |
| Warnings.WithCountReset | warnings_.py:48-51 | only the count of an existing record becomes 0; an absent key changes nothing |
| Warnings.WithBanFlag | warnings_.py:56-67 | only the ban flag of the record changes |
| Warnings.BanFlagIdempotent | warnings_.py:56-67 | banning twice or unbanning twice leaves what doing it once left |
| Warnings.ViolationKeepsKeysCanonical | warnings_.py:40-41 | logging violations keeps every key in the form `str(user_id)` |
| Warnings.WarningManager.constructor | warnings_.py:9-20 | the store starts as the loaded snapshot, or empty when loading failed, and is valid |
| Warnings.WarningManager.Save | warnings_.py:22-27 | the saved snapshot becomes the in-memory content |
| Warnings.WarningManager.GetUser | warnings_.py:29-37 | the stored record, or the default record (unknown, not banned, no messages, 0, standard threshold); reads only |
| Warnings.WarningManager.IsBanned | warnings_.py:53-54 | true exactly for a stored record marked banned; false for unknown ids |
| Warnings.WarningManager.GetWarningStatus | warnings_.py:60-62 | the count and threshold of the record, or `(0, standard)` for an unknown id |
| Warnings.WarningManager.GetLogs | warnings_.py:69-70 | the store's own records and insertion order, which form a dictionary |
| Warnings.WarningManager.LogViolation | warnings_.py:39-46 | the records become `WithViolation`; a new key goes last in order; the result is the previous count plus one; the store is saved |
| Warnings.WarningManager.ResetCount | warnings_.py:48-51 | the records become `WithCountReset`; an unknown id leaves the object unchanged, with nothing created and nothing saved |
| Warnings.WarningManager.BanUser | warnings_.py:56-58 | requires an existing record; afterwards the user is banned, nothing else changes, and the store is saved |
| Warnings.WarningManager.UnbanUser | warnings_.py:64-67 | an existing record is unbanned and saved; an unknown id leaves the object unchanged; afterwards `IsBanned` is false |
| Handlers.HandleChannelPost | handlers.py:25-36 | a post gets the rules as a reply exactly when its channel is whitelisted, and nothing otherwise |
| Handlers.AdminNotices | handlers.py:97-104 | one notice per admin, in the order of ADMINS |
| Handlers.NotifyAdmins | handlers.py:97-104 | the loop issues `AdminNotices`, going on past a failed notice |
| Handlers.Restriction | handlers.py:84-104 | the restriction comes first; when it raises nothing else happens and the record keeps its flag; otherwise the record is marked banned, the ban is announced, and each admin is notified unless the announcement raised |
| Handlers.GroupSpamOutcome | handlers.py:72-104 | the violation is logged once; below the threshold with warnings on: a warning showing `count/threshold`, then the deletion unless the warning raised, and no ban; otherwise a restriction, with the ban flag set exactly when it was already set or the restriction went through; a failed restriction stops the path and the incremented count remains |
| Handlers.Moderate | handlers.py:39-108 | on behalf of a chat: rules once if whitelisted, else nothing, never classified; no text or no sender: nothing; private: the reply the verdict selects; clean text, a banned sender or a non-group chat: classification only; group spam: `GroupSpamOutcome`; only group spam changes the store |
| Handlers.EnforceGroupSpam | handlers.py:72-104 | the store's records and the calls are those of `GroupSpamOutcome`; a new violator goes last in order |
| Handlers.RestrictSpammer | handlers.py:84-104 | the store's records and the calls are those of the restriction stage of `GroupSpamOutcome`; order is unchanged |
| Handlers.FilterMessages | handlers.py:39-108 | the store's records and the calls are those of `Moderate`; the order is unchanged unless a new violator is appended to it |
| Handlers.WarnAndDelete | handlers.py:72-82 | with no failures, group spam below the threshold gives exactly: classify, warn with `count+1/threshold`, delete; the record gains the violation |
| Handlers.RestrictAndBan | handlers.py:84-104 | with no failures, group spam at the threshold (or with warnings off) gives exactly: classify, restrict, announce, one notice per admin; the record gains the violation and is marked banned |
| Handlers.ThreeStrikes | handlers.py:72-95 | with threshold 3, warnings on and no failures, a fresh store gives warn 1/3, warn 2/3, then restrict, announce and notify every admin, then only classification |
| Handlers.Entry | handlers.py:126-128 | a record's export is its first line (id, name, count over threshold, status), then each message as its own bulleted item, in order; a record without messages shows one empty item |
| Handlers.EntryList | handlers.py:125-128 | one entry per key in insertion order, each the `Entry` of that key's record: id, name, count over threshold, status, then the messages as a list |
| Handlers.EntryInLogs | handlers.py:124-128 | every record's entry appears in the export, between the entries before it and the entries after it |
| Handlers.RenderLogs | handlers.py:124-128 | the accumulating loop builds exactly the header followed by all entries |
| Handlers.LogsReply | handlers.py:119-129 | an empty store gives the no-logs text; otherwise exactly the first `min(len, 4096)` characters of the full export |
| Handlers.ProcessCallback | handlers.py:112-131 | non-admins get the refusal whatever the store holds; other buttons are only answered; "logs" edits the message to `LogsReply` and answers the callback unless the edit raised |
| Handlers.FindByUsername | handlers.py:149 | the first position in insertion order whose record has the name, or none when no record has it |
| Handlers.ResolveTarget | handlers.py:143-154 | `@name` gives the key of the first record in insertion order with that username, none when that key is empty or no record has it; other text is a key used as written; a result is always a non-empty key of the store |
| Handlers.LeadingZeroNeverResolves | handlers.py:150-154 | where every key is `str(user_id)`, an input such as `"0123"` is never found |
| Handlers.TryBanAction | handlers.py:156-168 | keys and everything but ban flags are kept; at least one call is made; the store changes only after a platform call that went through |
| Handlers.TryBanActionCases | handlers.py:156-168 | a key `int()` rejects, or a failed platform call, is reported and changes nothing; for a canonical key a successful platform call flips exactly that record's flag and is confirmed with its username, and a failed confirmation is reported |
| Handlers.TryBan | handlers.py:156-168 | the store's records and the calls are those of `TryBanAction`; order is unchanged |
| Handlers.TargetAction | handlers.py:147-168 | at least one call; keys are kept; the store changes only after a platform ban or unban that went through |
| Handlers.ActOnTarget | handlers.py:144-168 | the store's records and the calls are those of `TargetAction`; order is unchanged |
| Handlers.NextState | handlers.py:170 | `state.clear()` is reached, and a waiting session becomes idle, exactly when a call was made and the last one did not raise; otherwise the state is kept |
| Handlers.BanAction | handlers.py:142-170 | calls are made exactly when there is text; the session returns to idle unless no call was made or the last call raised; keys are kept; the store changes only after a platform ban or unban that went through |
| Handlers.BanActionCases | handlers.py:142-170 | no text: no calls, no change, state kept; an input naming no record: only a "not found" reply; a resolved key: the `try` block `TryBanAction` on it |
| Handlers.ProcessBanAction | handlers.py:142-170 | the store's records, the calls and the next state are those of `BanAction`; order is unchanged |

## Left out

- detector.py: the classifier is a thin wrapper over a neural model with floating-point probabilities. It is the boolean `isSpam` input. Its fallback to "not spam" when the model raises is therefore one of the inputs, and the probabilities, used only for logging, are not modelled.
- bot.py (start-up and polling) and keyboards.py (a static keyboard whose only button sends "logs") hold no decisions.
- `_load` and `_save` file and JSON I/O are not modelled:
  - loading is the optional snapshot given to the constructor (`None` for a missing or unreadable file);
  - saving is the ghost `saved` field;
  - a failed write, and the serialization round trip, are not modelled.
- Records are typed. The `.get(..., default)` fallbacks for missing fields in a hand-edited file are not modelled.
- Asynchronous interleaving of handlers across `await` points is not modelled; the model is sequential. This includes the lost update of `count` when two messages from one user race.
- The transport is not modelled beyond the calls it is given and which of them raise. That covers aiogram's `answer`, `delete`, `restrict_chat_member`, `ban_chat_member`, `unban_chat_member`, `edit_text` and `callback.answer`.
- Logging is not modelled. `cmd_start` and `cmd_info` are fixed text replies and are not modelled.
- Nothing in handlers.py puts an admin into the `waiting_for_ban` or `waiting_for_unban` state; the model takes the state as an input. Which handler aiogram routes a message to is not part of this model either.
- Warnings.WarningManager.GetLogs: returns a value, so the aliasing of the returned live dictionary with the store is not captured. The handlers read it only before they mutate, or read fields a ban flag does not change.
- Text.ParseInt: accepts only ASCII digits after an optional sign. Python's `int()` also accepts surrounding white space, underscores between digits and other Unicode digits. Keys written by the program never contain those.
- Handlers.TryBanAction: the `ValueError` and `KeyError` texts approximate Python's messages. Python quotes keys with `repr`, which this model does not reproduce for keys containing quotes or backslashes.
