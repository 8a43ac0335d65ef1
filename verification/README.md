# Session-file bot: a Dafny model

`bot.py` is a Telegram bot that walks a user through the Telegram login handshake and sends back the
`.session` file Telethon writes for the login. The user sends `/gensession`, then a phone number, then
the login code, and possibly the account's cloud password (2FA). This project models the part of the
bot that decides what happens:

- the phone check of `receive_phone` and `make_session_filename` (module `Phone`, built on `Text`,
  which models Python's `str.strip()`, `str.replace(c, "")` and `str.startswith`);
- the five conversation handlers `gensession_start`, `receive_phone`, `receive_code`, `receive_2fa`
  and `cancel_cmd` (module `Handlers`);
- `safe_send_file` (module `Delivery`);
- the handler table of `setup_application`: `/start`, the ConversationHandler and the stand-alone
  `/cancel` (module `Conversation`), plus the life of one user's conversation in one chat as a
  sequence of updates (`Conversation.Run`);
- complete conversations, from `/gensession` to delivery (module `Scenarios`).

Each handler is a pure function. It takes the user's `user_data`, the working directory (a finite set
of file names), the message text and the outcomes of the Telethon calls it makes. It returns the next
conversation state, the new `user_data`, the new directory and a trace of effects (`Effects.Effect`):
replies, client creation, connect, code request, sign-in attempts, disconnects, delivery calls and
documents sent. Each Telethon call's outcome is an `Outcome`: it returns normally, raises one of the
errors a handler catches by type, or raises something else.

The model follows the code as written:

- `receive_2fa` ends the conversation on every path, including a SessionPasswordNeededError raised by
  the password sign-in (bot.py:206-217). Its `finally` block disconnects a second time after a
  successful sign-in.
- `+91 98-76-54-32-10` becomes `+919876543210.session`; the leading `+` is kept (bot.py:44-46).

## Model

| member | source | states |
|---|---|---|
| Text.Strip | bot.py:106 | The result of `strip()` has whitespace at neither end and is no longer than its input. |
| Text.StripUnique | bot.py:106 | Whatever Python whitespace surrounds a trimmed string, stripping returns exactly that string. |
| Text.StripIdempotent | bot.py:106 | Stripping an already stripped phone changes nothing. |
| Text.StripBounds | bot.py:106 | `strip()` returns a slice of its input, with only whitespace before and after it. |
| Text.StripSplit | bot.py:106 | Every text is its stripped core wrapped in whitespace on both sides. |
| Text.StripIgnoresPadding | bot.py:106 | Whitespace added around a text does not change what `strip()` returns. |
| Text.RemoveAll | bot.py:44 | `replace(c, "")` leaves no `c` in its result and never lengthens the string. |
| Text.RemoveAllCounts | bot.py:44 | `replace(c, "")` keeps every other character exactly as often as it occurs, and drops every `c`. |
| Text.RemoveAllAppend | bot.py:44 | `replace(c, "")` distributes over concatenation. |
| Text.RemoveAllAbsent | bot.py:44 | A string without `c` is unchanged by `replace(c, "")`. |
| Text.RemoveAllIdempotent | bot.py:44 | Removing a character twice is the same as removing it once. |
| Text.RemoveAllKeepsAbsence | bot.py:44 | Removing hyphens never brings back a space the first `replace` removed. |
| Text.RemoveAllDrop | bot.py:44 | An occurrence of the removed character disappears wherever it stands. |
| Text.RemoveAllKeep | bot.py:44 | Any other character stays where it stands. |
| Phone.CheckPhone | bot.py:106-109 | A text is accepted iff, once stripped, it is at least 7 characters long and starts with `+`; the accepted phone is the stripped text, trimmed at both ends. |
| Phone.CheckPhoneIgnoresPadding | bot.py:106-107 | Whitespace around the message changes neither the verdict nor the accepted phone. |
| Phone.Sanitize | bot.py:44 | The sanitised phone contains no space and no hyphen. |
| Phone.SanitizeCounts | bot.py:44 | Sanitising keeps every character other than space and hyphen, with its multiplicity. |
| Phone.SanitizeAppend | bot.py:44 | Sanitising distributes over concatenation. |
| Phone.SanitizeIdempotent | bot.py:42-46 | Sanitising is idempotent, and a sanitised phone names the same file as the original. |
| Phone.MakeSessionFilename | bot.py:42-46 | The file name is exactly the sanitised phone followed by `.session`, so it has the shape of a session name: a stem with no space and no hyphen, then `.session`. |
| Phone.SessionFilenameOfSanitized | bot.py:42-46 | The file name of any phone is `Sanitize(phone) + ".session"`, and sanitising the phone first names the same file. |
| Phone.SessionNameIsFilename | bot.py:42-46 | Every session-shaped name is the file name of a phone, namely its own stem; so session names are exactly the names `make_session_filename` can return. |
| Phone.SameFileIffSameSanitized | bot.py:42-46 | Two phones name the same session file iff they agree after spaces and hyphens are removed. |
| Phone.SeparatorIgnored | bot.py:42-46 | Inserting a space or hyphen anywhere in a phone leaves its file name unchanged. |
| Phone.CompactPhoneFile | bot.py:42-46 | A phone without separators names the file `phone + ".session"`, `+` included. |
| Phone.GroupedPhoneSharesFile | bot.py:42-46 | The grouped form `a b-c-d-e-f` names the same file as the groups written together. |
| Phone.GroupedGreetingNumber | bot.py:42-46 | `+91 98-76-54-32-10` names the same file as the prompt's example `+919876543210`. |
| Phone.JournalOf | bot.py:70 | The journal companion starts with the whole file name and ends with `-journal`, nothing else; the journal of a session name has the shape of a journal name. |
| Phone.JournalIsNoSessionFile | bot.py:69-73 | A journal companion is never the session file of any phone. |
| Delivery.SafeSendFile | bot.py:49-76 | "Not found" is sent iff the file is missing, and then nothing changes. A failed send gets "failed to send" and nothing changes. A successful send delivers the document, and with deletion on it removes the file and its journal and nothing else. |
| Delivery.SecondSendFindsNothing | bot.py:51-53 | After a delivery with deletion, a second delivery of the same path reports "not found" and sends nothing. |
| Delivery.DeletionSparesOtherSessions | bot.py:63-75 | Deleting a delivered session keeps the session file of any phone that sanitises differently. |
| Handlers.StartedSharesFile | bot.py:111-117 | The data stored for two accepted phones names the same session file iff the phones sanitise alike, and is the same data iff the phones are the same. |
| Handlers.ReceivePhone | bot.py:105-141 | A rejected phone stays in ASK_PHONE with the data and the files unchanged and the format warning sent. An accepted phone creates its session file on disk whatever the later calls do. The code is requested iff the phone is accepted and connect succeeds. WAIT_CODE is reached iff both calls succeed, with the phone, client and path stored. Otherwise the conversation ends with the data cleared, and the invalid-phone reply is sent iff the failing call raised PhoneNumberInvalidError. |
| Handlers.ReceiveCode | bot.py:144-185 | Missing keys give "session expired", clear the data and end; that reply is sent iff a key is missing. Otherwise sign-in with the stored phone and the stripped code is attempted. WAIT_2FA is reached iff the password is needed, keeping the data; every other path ends and clears. Only a successful sign-in delivers and may change the files; each rejection gets its own reply. "File not found" is sent iff sign-in succeeds and the session file is missing. |
| Handlers.Receive2FA | bot.py:188-217 | Every path ends the conversation and clears the data. "Session expired" is sent iff a key is missing. Otherwise password sign-in is attempted. Only a successful sign-in delivers and may change the files. A SessionPasswordNeededError after the password gets "password incorrect". "File not found" is sent iff sign-in succeeds and the session file is missing. |
| Handlers.CancelCmd | bot.py:87-97 | `/cancel` replies first, ends the conversation, clears the data, and disconnects iff a client is held. |
| Handlers.DeliveryTally | bot.py:49-76 | A delivery is one call of safe_send_file and no client, sign-in or disconnect. |
| Handlers.ReceivePhoneTrace | bot.py:105-141 | `receive_phone` creates a client iff the phone is accepted and disconnects it iff the conversation ends; it never signs in or delivers. |
| Handlers.ReceiveCodeTrace | bot.py:144-185 | `receive_code` signs in once when the keys are present, disconnects unless it moves to WAIT_2FA, and delivers once iff sign-in succeeds. |
| Handlers.Receive2FATrace | bot.py:188-217 | `receive_2fa` signs in once when the keys are present, delivers once iff sign-in succeeds, and disconnects twice on success and once on failure. |
| Handlers.CancelTrace | bot.py:87-97 | `/cancel` disconnects exactly the client it holds and nothing else. |
| Conversation.RouteOf | bot.py:225-238 | `/cancel` always reaches cancel_cmd and `/start` always reaches start_cmd. `/gensession` reaches the entry point iff no conversation is active. Plain text reaches the handler of the current state, and nothing outside a conversation. |
| Conversation.Dispatch | bot.py:225-238 | `/start` keeps state and data; an unhandled update changes nothing; `/cancel` always ends and clears. The only file an update can add is the session file of a phone that `receive_phone` accepts; the only files it can remove are the session file stored in the data and its journal. |
| Conversation.StoredPhoneAccepted | bot.py:106-115 | The phone stored in the data passes the phone check as it stands. |
| Conversation.DispatchKeepsConsistent | bot.py:100-238 | From empty data, each update keeps the data consistent with the state: empty outside WAIT_CODE and WAIT_2FA, inside them an accepted phone with its client and session file. |
| Conversation.PhoneNeverExpires | bot.py:105-141 | `receive_phone` never answers "session expired". |
| Conversation.ConsistentNeverExpires | bot.py:150-153 | In a chat whose data is consistent with its state, the "session expired" branches never fire. |
| Conversation.DispatchReleasesClients | bot.py:87-217 | Each update disconnects every client it creates or drops; it delivers at most once, and never without a sign-in. |
| Conversation.PhoneKeepsFile | bot.py:111-124 | When `receive_phone` moves to WAIT_CODE, the session file stored in the data is on disk. |
| Conversation.PhoneNeverMissesFile | bot.py:105-141 | `receive_phone` never answers "session file not found". |
| Conversation.DispatchKeepsFile | bot.py:111-217 | In WAIT_CODE and WAIT_2FA the stored session file is on disk; every update keeps it so and never meets the "file not found" branch. |
| Conversation.RunKeepsFile | bot.py:111-217 | The same holds over any sequence of updates. |
| Conversation.NeverFileNotFound | bot.py:49-53 | A conversation started from scratch never answers "session file not found", whatever the directory held. |
| Conversation.RunTouchesOnlySessionFiles | bot.py:42-76 | Over any sequence of updates, the files that appear are session files and the files that disappear are session files or their journals. |
| Conversation.RunKeepsConsistent | bot.py:100-238 | Consistency of data and state holds after any sequence of updates. |
| Conversation.RunReleasesClients | bot.py:87-217 | Over any sequence of updates, every client held or created is still held or was disconnected, and deliveries never outnumber sign-ins. |
| Conversation.ConversationsReleaseClients | bot.py:87-217 | A chat that starts and ends with no conversation has disconnected at least as many clients as it created. |
| Scenarios.GensessionFromIdle | bot.py:226 | `/gensession` with no conversation prompts for the phone and moves to ASK_PHONE. |
| Scenarios.PhoneAcceptedStep | bot.py:111-124 | An accepted phone whose calls succeed creates the client on its session file, which now exists, connects, requests the code and moves to WAIT_CODE. |
| Scenarios.CodeRun | bot.py:155-167 | A correct code for an account without a password ends the conversation, sends the session file iff it exists, and leaves the directory as the delivery does. |
| Scenarios.PhoneCodeRun | bot.py:105-167 | From ASK_PHONE, an accepted phone and a correct code with no password: the chat ends with empty data and the session file is sent; afterwards the file is on disk iff sent files are kept, and with deletion its journal is gone too. |
| Scenarios.SignInWithoutPassword | bot.py:100-167 | `/gensession`, phone, code: the chat ends with empty data and the phone's session file is sent; afterwards the file is on disk iff sent files are kept, and with deletion its journal is gone too. |
| Scenarios.CodeNeedsPasswordStep | bot.py:169-171 | A code answered with a password request moves to WAIT_2FA and keeps the data. |
| Scenarios.PasswordRun | bot.py:198-205 | The right password ends the conversation, sends the session file iff it exists, and leaves the directory as the delivery does. |
| Scenarios.CodeThenPasswordRun | bot.py:155-205 | Code then right password, from WAIT_CODE: ends with empty data, sending the session file iff it exists and leaving the directory as the delivery does. |
| Scenarios.PhoneCodePasswordRun | bot.py:105-205 | From ASK_PHONE, an accepted phone, a code answered with a password request, and the right password: the chat ends with empty data and the session file is sent; afterwards the file is on disk iff sent files are kept, and with deletion its journal is gone too. |
| Scenarios.SignInWithPassword | bot.py:100-205 | `/gensession`, phone, code, password: the chat ends with empty data and the phone's session file is sent; afterwards the file is on disk iff sent files are kept, and with deletion its journal is gone too. |
| Scenarios.RejectedCodeRun | bot.py:172-185 | From WAIT_CODE, a rejected code ends the conversation with empty data, the directory unchanged and no document sent. |
| Scenarios.FailedLoginKeepsFile | bot.py:111-185 | An accepted phone followed by a rejected code ends the conversation with the session file left on disk and no document sent. |
| Scenarios.RejectedCodeEnds | bot.py:172-185 | An invalid, expired or failing code ends the conversation, sends the matching reply, disconnects and delivers nothing. |
| Scenarios.GensessionWhileActiveIgnored | bot.py:225-234 | `/gensession` while a conversation is active reaches no handler. |
| Scenarios.CancelThenRestart | bot.py:87-102 | `/cancel` mid-conversation disconnects the client; a following `/gensession` starts again from the phone prompt with empty data. |
| Scenarios.WrongPasswordStep | bot.py:206-217 | A SessionPasswordNeededError after the password ends the conversation and clears the data after exactly one sign-in attempt, replying "password incorrect". |
| Scenarios.WrongPasswordEnds | bot.py:206-217 | A SessionPasswordNeededError after the password ends the conversation, so a second try reaches no handler and only one sign-in is attempted. |

## Left out

- The webhook server, the aiohttp routes and application start-up are I/O around the core.
- The configuration read from the environment is left out, apart from `DELETE_AFTER_SEND`, which
  is the parameter `deleteAfterSend`. So is the start-up check for missing variables.
- Telethon and the Telegram Bot API are not modelled. Every call on the client or the bot is an
  outcome parameter (`Outcome`, `sendOk`). The session file is taken to appear when the client is
  created (bot.py:113), since Telethon's SQLite session opens it there; its contents are not modelled.
- `reply_text` and `send_message` are assumed to succeed. Some of them are inside `try` blocks: the
  replies at bot.py:123, 157 and 200, and the `send_message` calls of `safe_send_file` (bot.py:52, 60)
  reached from bot.py:165 and 205. A failure there would be caught by `except Exception` (bot.py:133,
  176, 208) and handled like a failed Telethon call. The other replies are outside any `try`, and a
  failure there would propagate out of the handler. Neither kind of failure is modelled.
- Exceptions from `disconnect()` and `unlink()` are swallowed by the bot. The model records the
  attempt and treats a deletion as done.
- Path normalisation (`./`, `//`, directories in the phone text) is not modelled. File names are
  plain strings.
- Concurrency is left out: the model assumes one chat's updates are handled one after another;
  bot.py does not enforce this.
- Conversation timeouts are left out: the bot configures none. Re-entry is left out: the bot does not
  enable it, so `/gensession` during a conversation is ignored.
- Updates without text, and commands other than `/start`, `/gensession` and `/cancel`, are left out.
  Messages that are commands never reach the state handlers, and the model routes them only by name.
- Logging is left out.
- `start_cmd` is modelled only by its single reply, inside `Conversation.Dispatch`.
- `user_data` belongs to the user, across all chats, while the conversation state belongs to the pair
  of chat and user. The model follows one user in one chat.
- Conversation.RunReleasesClients: holds only for a user with a single conversation. A user with
  conversations in two chats shares one `user_data`, so one chat can replace or clear the other's
  client without disconnecting it. The same restriction applies to Conversation.RunKeepsConsistent
  and Conversation.ConversationsReleaseClients.
- Conversation.Dispatch: the `-journal` file Telethon's SQLite session may create next to the session
  file (bot.py:45, 69) is not modelled; only its removal by `safe_send_file` is. So an update adds at
  most the session file, never its journal.
- Conversation.RunTouchesOnlySessionFiles: for the same reason, only session files appear over a run;
  the journal Telethon may create is not modelled, only its removal.
- Conversation.NeverFileNotFound: holds only when no other conversation changes the directory.
  Another chat whose phone sanitises alike can deliver and delete the same session file.
