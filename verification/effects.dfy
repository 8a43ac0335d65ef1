/** What a handler does to the outside world, recorded as a trace: messages to
    the chat, calls on the Telethon client, and deliveries of the session file. */
module Effects {

  /** Every distinct text the bot sends to a chat in bot.py. */
  datatype Reply =
    | Welcome             // start_cmd
    | Cancelled           // cancel_cmd
    | PhonePrompt         // gensession_start
    | InvalidPhoneFormat  // the phone check failed
    | SendingCode
    | CodeSent
    | PhoneNumberInvalid  // PhoneNumberInvalidError while requesting the code
    | CodeRequestFailed   // any other error while requesting the code
    | SessionExpired      // a needed key is missing from the user's data
    | SignedIn
    | PasswordPrompt      // SessionPasswordNeededError after the code
    | InvalidCode
    | ExpiredCode
    | SignInFailed        // any other error signing in with the code
    | PasswordAccepted
    | PasswordIncorrect   // SessionPasswordNeededError after the password
    | PasswordFailed      // any other error signing in with the password
    | FileNotFound        // safe_send_file: the session file is absent
    | FileSendFailed      // safe_send_file: send_document raised

  datatype Effect =
    | Say(reply: Reply)                     // reply_text / send_message
    | NewClient(sessionPath: string)        // TelegramClient(str(session_path), ...)
    | Connect
    | RequestCode(phone: string)            // send_code_request
    | SignInWithCode(phone: string, code: string)
    | SignInWithPassword(password: string)
    | Disconnect                            // an attempted disconnect; its errors are swallowed
    | Deliver(path: string)                 // safe_send_file is called for `path`
    | Document(path: string)                // send_document succeeded

  /** The kinds of effect the tallies count. */
  datatype Kind = KSay | KNewClient | KConnect | KRequestCode | KSignIn | KDisconnect | KDeliver | KDocument

  function KindOf(e: Effect): (k: Kind) {
    match e
    case Say(_) => KSay
    case NewClient(_) => KNewClient
    case Connect => KConnect
    case RequestCode(_) => KRequestCode
    case SignInWithCode(_, _) => KSignIn
    case SignInWithPassword(_) => KSignIn
    case Disconnect => KDisconnect
    case Deliver(_) => KDeliver
    case Document(_) => KDocument
  }

  /** Number of effects of kind `k` in `effs`. */
  function Count(effs: seq<Effect>, k: Kind): (n: nat)
    ensures n <= |effs|
  {
    if |effs| == 0 then
      0
    else
      (if KindOf(effs[0]) == k then 1 else 0) + Count(effs[1..], k)
  }

  lemma {:induction false} CountAppend(a: seq<Effect>, b: seq<Effect>, k: Kind)
    ensures Count(a + b, k) == Count(a, k) + Count(b, k)
    decreases |a|
  {
    if |a| == 0 {
      assert a + b == b;
    } else {
      assert (a + b)[1..] == a[1..] + b;
      CountAppend(a[1..], b, k);
    }
  }

  /** Attempted disconnects of the Telethon client. */
  function Disconnects(effs: seq<Effect>): (n: nat) {
    Count(effs, KDisconnect)
  }

  /** Clients created. */
  function NewClients(effs: seq<Effect>): (n: nat) {
    Count(effs, KNewClient)
  }

  /** Sign-in calls, with a code or with a password. */
  function SignIns(effs: seq<Effect>): (n: nat) {
    Count(effs, KSignIn)
  }

  /** Calls of safe_send_file. */
  function Deliveries(effs: seq<Effect>): (n: nat) {
    Count(effs, KDeliver)
  }

  /** Every tally of a concatenated trace is the sum of the tallies of its parts. */
  lemma Tally(a: seq<Effect>, b: seq<Effect>)
    ensures forall k :: Count(a + b, k) == Count(a, k) + Count(b, k)
  {
    forall k {
      CountAppend(a, b, k);
    }
  }
}
