/** The conversation handlers of bot.py. Each handler is a total function of
    the user's data, the working directory, the message text and the outcome
    of the one external call it makes; it returns the next conversation state,
    the new data, the new directory and the trace of its effects. */
module Handlers {
  import opened Wrappers
  import opened Text
  import opened Phone
  import opened Effects
  import opened Delivery

  /** ASK_PHONE, WAIT_CODE, WAIT_2FA and ConversationHandler.END; `End`
      also stands for "no conversation is active for this chat". */
  datatype State = AskPhone | WaitCode | Wait2FA | End

  /** A Telethon client, identified by the session file it was created on. */
  datatype Client = Client(sessionPath: string)

  /** `context.user_data`: the three keys the handlers use; a missing key is None. */
  datatype UserData = UserData(phone: Option<string>, client: Option<Client>, sessionPath: Option<string>)

  /** `user_data.clear()` */
  const Cleared := UserData(None, None, None)

  /** How a call on the Telethon client returned: normally, or by raising one of
      the errors the handlers catch by type, or by raising anything else. */
  datatype Outcome = Ok | PasswordNeeded | PhoneInvalid | CodeInvalid | CodeExpired | Other

  datatype Step = Step(next: State, data: UserData, store: set<string>, effects: seq<Effect>)

  /** The data `receive_phone` stores for an accepted phone: the phone, a client
      on its session file, and that session file. */
  function Started(phone: string): (d: UserData)
    ensures d.phone == Some(phone)
    ensures d.client.Some? && d.sessionPath == Some(d.client.value.sessionPath)
    ensures d.sessionPath == Some(MakeSessionFilename(phone))
  {
    var path := MakeSessionFilename(phone);
    UserData(Some(phone), Some(Client(path)), Some(path))
  }

  /** Two accepted phones get the same session file exactly when they
      sanitise alike, and the same data exactly when they are the same phone. */
  lemma StartedSharesFile(p: string, q: string)
    ensures Started(p).sessionPath == Started(q).sessionPath <==> Sanitize(p) == Sanitize(q)
    ensures Started(p) == Started(q) <==> p == q
  {
    SameFileIffSameSanitized(p, q);
  }

  predicate HasCodeKeys(d: UserData) {
    d.client.Some? && d.phone.Some? && d.sessionPath.Some?
  }

  predicate HasPasswordKeys(d: UserData) {
    d.client.Some? && d.sessionPath.Some?
  }

  /** `gensession_start`: prompt for the phone; the data is left as it is. */
  function GensessionStart(data: UserData, store: set<string>): (s: Step)
    ensures s.next == AskPhone && s.data == data && s.store == store
    ensures s.effects == [Say(PhonePrompt)]
  {
    Step(AskPhone, data, store, [Say(PhonePrompt)])
  }

  /** `receive_phone`. `connect` and `sendCode` are the outcomes of
      `client.connect()` and `client.send_code_request(phone)`; the second call
      is made only when the first returns normally. Creating the client opens
      its SQLite session, which creates the session file whatever the later
      calls do; nothing here removes it again. */
  function ReceivePhone(data: UserData, store: set<string>, text: string, connect: Outcome, sendCode: Outcome): (s: Step)
    ensures CheckPhone(text).None? ==> s.store == store
    ensures CheckPhone(text).Some? ==> s.store == store + {MakeSessionFilename(Strip(text))}
    ensures s.next == AskPhone <==> CheckPhone(text).None?
    ensures s.next == AskPhone ==> s.data == data && s.effects == [Say(InvalidPhoneFormat)]
    ensures RequestCode(Strip(text)) in s.effects <==> CheckPhone(text).Some? && connect == Ok
    ensures s.next == WaitCode <==> CheckPhone(text).Some? && connect == Ok && sendCode == Ok
    ensures s.next == WaitCode ==> s.data == Started(Strip(text))
    ensures s.next != AskPhone && s.next != WaitCode ==>
              && s.next == End && s.data == Cleared
              && (Say(PhoneNumberInvalid) in s.effects <==> (if connect == Ok then sendCode else connect) == PhoneInvalid)
  {
    match CheckPhone(text)
    case None =>
      Step(AskPhone, data, store, [Say(InvalidPhoneFormat)])
    case Some(phone) =>
      var path := MakeSessionFilename(phone);
      var prelude := [NewClient(path), Say(SendingCode), Connect];
      var store' := store + {path};
      if connect == Ok && sendCode == Ok then
        Step(WaitCode, Started(phone), store', prelude + [RequestCode(phone), Say(CodeSent)])
      else
        var attempted := if connect == Ok then prelude + [RequestCode(phone)] else prelude;
        var failure := if connect == Ok then sendCode else connect;
        var reply := if failure == PhoneInvalid then PhoneNumberInvalid else CodeRequestFailed;
        Step(End, Cleared, store', attempted + [Say(reply), Disconnect])
  }

  /** The reply `receive_code` sends when signing in with the code raises
      something other than SessionPasswordNeededError. */
  function CodeFailureReply(o: Outcome): (r: Reply) {
    match o
    case CodeInvalid => InvalidCode
    case CodeExpired => ExpiredCode
    case _ => SignInFailed
  }

  /** `receive_code`. `signIn` is the outcome of `client.sign_in(phone, code)`;
      `sendOk` and `deleteAfterSend` are passed on to the delivery. */
  function ReceiveCode(data: UserData, store: set<string>, text: string, signIn: Outcome,
                       sendOk: bool, deleteAfterSend: bool): (s: Step)
    ensures !HasCodeKeys(data) ==> s == Step(End, Cleared, store, [Say(SessionExpired)])
    ensures Say(SessionExpired) in s.effects <==> !HasCodeKeys(data)
    ensures HasCodeKeys(data) ==> SignInWithCode(data.phone.value, Strip(text)) in s.effects
    ensures s.next == Wait2FA <==> HasCodeKeys(data) && signIn == PasswordNeeded
    ensures s.next == Wait2FA ==> s.data == data
    ensures s.next != Wait2FA ==> s.next == End && s.data == Cleared
    ensures HasCodeKeys(data) && signIn == Ok ==>
              && Deliver(data.sessionPath.value) in s.effects
              && s.store == SafeSendFile(store, data.sessionPath.value, sendOk, deleteAfterSend).store
    ensures !(HasCodeKeys(data) && signIn == Ok) ==> s.store == store
    ensures HasCodeKeys(data) && signIn !in {Ok, PasswordNeeded} ==> Say(CodeFailureReply(signIn)) in s.effects
    ensures Say(FileNotFound) in s.effects <==> HasCodeKeys(data) && signIn == Ok && data.sessionPath.value !in store
  {
    if !HasCodeKeys(data) then
      Step(End, Cleared, store, [Say(SessionExpired)])
    else
      var attempt := [SignInWithCode(data.phone.value, Strip(text))];
      match signIn
      case Ok =>
        var d := SafeSendFile(store, data.sessionPath.value, sendOk, deleteAfterSend);
        var effects := attempt + [Say(SignedIn), Disconnect] + d.effects;
        Step(End, Cleared, d.store, effects)
      case PasswordNeeded =>
        Step(Wait2FA, data, store, attempt + [Say(PasswordPrompt)])
      case _ =>
        Step(End, Cleared, store, attempt + [Say(CodeFailureReply(signIn)), Disconnect])
  }

  /** `receive_2fa`. Every path ends the conversation and clears the data,
      a SessionPasswordNeededError after the password included; the `finally`
      block disconnects once more after a successful sign-in. */
  function Receive2FA(data: UserData, store: set<string>, text: string, signIn: Outcome,
                      sendOk: bool, deleteAfterSend: bool): (s: Step)
    ensures s.next == End && s.data == Cleared
    ensures !HasPasswordKeys(data) ==> s.effects == [Say(SessionExpired)] && s.store == store
    ensures Say(SessionExpired) in s.effects <==> !HasPasswordKeys(data)
    ensures HasPasswordKeys(data) ==> SignInWithPassword(Strip(text)) in s.effects
    ensures HasPasswordKeys(data) && signIn == Ok ==>
              && Deliver(data.sessionPath.value) in s.effects
              && s.store == SafeSendFile(store, data.sessionPath.value, sendOk, deleteAfterSend).store
    ensures !(HasPasswordKeys(data) && signIn == Ok) ==> s.store == store
    ensures HasPasswordKeys(data) && signIn == PasswordNeeded ==> Say(PasswordIncorrect) in s.effects
    ensures Say(FileNotFound) in s.effects <==> HasPasswordKeys(data) && signIn == Ok && data.sessionPath.value !in store
  {
    if !HasPasswordKeys(data) then
      Step(End, Cleared, store, [Say(SessionExpired)])
    else
      var attempt := [SignInWithPassword(Strip(text))];
      if signIn == Ok then
        var d := SafeSendFile(store, data.sessionPath.value, sendOk, deleteAfterSend);
        Step(End, Cleared, d.store, attempt + [Say(PasswordAccepted), Disconnect] + d.effects + [Disconnect])
      else
        var reply := if signIn == PasswordNeeded then PasswordIncorrect else PasswordFailed;
        Step(End, Cleared, store, attempt + [Say(reply), Disconnect])
  }

  /** `cancel_cmd`: disconnect the client if there is one, clear the data, end. */
  function CancelCmd(data: UserData, store: set<string>): (s: Step)
    ensures s.next == End && s.data == Cleared && s.store == store
    ensures |s.effects| > 0 && s.effects[0] == Say(Cancelled)
    ensures Disconnect in s.effects <==> data.client.Some?
  {
    var disconnect := if data.client.Some? then [Disconnect] else [];
    Step(End, Cleared, store, [Say(Cancelled)] + disconnect)
  }

  /** The tallies of a delivery: one call of safe_send_file and nothing else counted. */
  lemma DeliveryTally(d: Sent, path: string)
    requires |d.effects| == 2 && d.effects[0] == Deliver(path)
    requires d.effects[1] in {Say(FileNotFound), Say(FileSendFailed), Document(path)}
    ensures Deliveries(d.effects) == 1
    ensures Disconnects(d.effects) == 0 && NewClients(d.effects) == 0 && SignIns(d.effects) == 0
  {
    assert d.effects == [Deliver(path)] + [d.effects[1]];
    Tally([Deliver(path)], [d.effects[1]]);
  }

  /** The four tallies of a trace, in one value. */
  datatype Tallies = Tallies(newClients: nat, signIns: nat, disconnects: nat, deliveries: nat)

  function TalliesOf(effs: seq<Effect>): (t: Tallies) {
    Tallies(NewClients(effs), SignIns(effs), Disconnects(effs), Deliveries(effs))
  }

  /** A failed code request: what was attempted, a reply and a disconnect. */
  lemma RequestFailedTally(attempted: seq<Effect>, r: Reply)
    requires TalliesOf(attempted) == Tallies(1, 0, 0, 0)
    ensures TalliesOf(attempted + [Say(r), Disconnect]) == Tallies(1, 0, 1, 0)
  {
    assert attempted + [Say(r), Disconnect] == attempted + [Say(r)] + [Disconnect];
    Tally(attempted, [Say(r)]);
    Tally(attempted + [Say(r)], [Disconnect]);
  }

  /** A sign-in attempt, a reply and a disconnect. */
  lemma AttemptTally(x: Effect, r: Reply)
    requires KindOf(x) == KSignIn
    ensures TalliesOf([x] + [Say(r), Disconnect]) == Tallies(0, 1, 1, 0)
  {
    assert [x] + [Say(r), Disconnect] == [x] + [Say(r)] + [Disconnect];
    Tally([x], [Say(r)]);
    Tally([x] + [Say(r)], [Disconnect]);
  }

  /** A sign-in attempt, a reply, a disconnect and a delivery. */
  lemma AttemptDeliveredTally(x: Effect, r: Reply, d: Sent, path: string)
    requires KindOf(x) == KSignIn
    requires |d.effects| == 2 && d.effects[0] == Deliver(path)
    requires d.effects[1] in {Say(FileNotFound), Say(FileSendFailed), Document(path)}
    ensures TalliesOf([x] + [Say(r), Disconnect] + d.effects) == Tallies(0, 1, 1, 1)
    ensures TalliesOf([x] + [Say(r), Disconnect] + d.effects + [Disconnect]) == Tallies(0, 1, 2, 1)
  {
    AttemptTally(x, r);
    DeliveryTally(d, path);
    Tally([x] + [Say(r), Disconnect], d.effects);
    Tally([x] + [Say(r), Disconnect] + d.effects, [Disconnect]);
  }

  /** `receive_phone` creates a client exactly when the phone is accepted, and
      disconnects it exactly when the conversation ends; it neither signs in
      nor delivers. */
  lemma ReceivePhoneTrace(data: UserData, store: set<string>, text: string, connect: Outcome, sendCode: Outcome)
    ensures var s := ReceivePhone(data, store, text, connect, sendCode);
            TalliesOf(s.effects) == Tallies(if CheckPhone(text).Some? then 1 else 0, 0, if s.next == End then 1 else 0, 0)
  {
    if CheckPhone(text).Some? {
      var phone := CheckPhone(text).value;
      var prelude := [NewClient(MakeSessionFilename(phone)), Say(SendingCode), Connect];
      PreludeTally(prelude, phone);
      if connect == Ok && sendCode == Ok {
        CodeSentTally(data, store, text, phone, prelude);
      } else {
        CodeRequestFailedTally(data, store, text, connect, sendCode, phone, prelude);
      }
    }
  }

  lemma PreludeTally(prelude: seq<Effect>, phone: string)
    requires prelude == [NewClient(MakeSessionFilename(phone)), Say(SendingCode), Connect]
    ensures TalliesOf(prelude) == Tallies(1, 0, 0, 0)
    ensures TalliesOf(prelude + [RequestCode(phone)]) == Tallies(1, 0, 0, 0)
  {
    var path := MakeSessionFilename(phone);
    assert prelude == [NewClient(path)] + [Say(SendingCode)] + [Connect];
    Tally([NewClient(path)], [Say(SendingCode)]);
    Tally([NewClient(path)] + [Say(SendingCode)], [Connect]);
    Tally(prelude, [RequestCode(phone)]);
  }

  lemma CodeSentTally(data: UserData, store: set<string>, text: string, phone: string, prelude: seq<Effect>)
    requires CheckPhone(text) == Some(phone)
    requires prelude == [NewClient(MakeSessionFilename(phone)), Say(SendingCode), Connect]
    requires TalliesOf(prelude + [RequestCode(phone)]) == Tallies(1, 0, 0, 0)
    ensures TalliesOf(ReceivePhone(data, store, text, Ok, Ok).effects) == Tallies(1, 0, 0, 0)
  {
    var s := ReceivePhone(data, store, text, Ok, Ok);
    assert s.effects == prelude + [RequestCode(phone)] + [Say(CodeSent)];
    Tally(prelude + [RequestCode(phone)], [Say(CodeSent)]);
  }

  lemma CodeRequestFailedTally(data: UserData, store: set<string>, text: string, connect: Outcome, sendCode: Outcome,
                               phone: string, prelude: seq<Effect>)
    requires CheckPhone(text) == Some(phone) && !(connect == Ok && sendCode == Ok)
    requires prelude == [NewClient(MakeSessionFilename(phone)), Say(SendingCode), Connect]
    requires TalliesOf(prelude) == Tallies(1, 0, 0, 0)
    requires TalliesOf(prelude + [RequestCode(phone)]) == Tallies(1, 0, 0, 0)
    ensures TalliesOf(ReceivePhone(data, store, text, connect, sendCode).effects) == Tallies(1, 0, 1, 0)
  {
    var s := ReceivePhone(data, store, text, connect, sendCode);
    var attempted := if connect == Ok then prelude + [RequestCode(phone)] else prelude;
    var failure := if connect == Ok then sendCode else connect;
    var reply := if failure == PhoneInvalid then PhoneNumberInvalid else CodeRequestFailed;
    assert s.effects == attempted + [Say(reply), Disconnect];
    RequestFailedTally(attempted, reply);
  }

  /** `receive_code` signs in once when the three keys are present and never
      otherwise; it disconnects once unless the account asks for a password,
      and it delivers once exactly when the sign-in succeeds. */
  lemma ReceiveCodeTrace(data: UserData, store: set<string>, text: string, signIn: Outcome,
                         sendOk: bool, deleteAfterSend: bool)
    ensures var s := ReceiveCode(data, store, text, signIn, sendOk, deleteAfterSend);
            TalliesOf(s.effects) == Tallies(
              0,
              if HasCodeKeys(data) then 1 else 0,
              if HasCodeKeys(data) && signIn != PasswordNeeded then 1 else 0,
              if HasCodeKeys(data) && signIn == Ok then 1 else 0)
  {
    if HasCodeKeys(data) {
      if signIn == Ok {
        SignedInTally(data, store, text, sendOk, deleteAfterSend);
      } else if signIn == PasswordNeeded {
        PasswordPromptTally(data, store, text, sendOk, deleteAfterSend);
      } else {
        CodeFailedTally(data, store, text, signIn, sendOk, deleteAfterSend);
      }
    }
  }

  lemma SignedInTally(data: UserData, store: set<string>, text: string, sendOk: bool, deleteAfterSend: bool)
    requires HasCodeKeys(data)
    ensures TalliesOf(ReceiveCode(data, store, text, Ok, sendOk, deleteAfterSend).effects) == Tallies(0, 1, 1, 1)
  {
    var s := ReceiveCode(data, store, text, Ok, sendOk, deleteAfterSend);
    var x := SignInWithCode(data.phone.value, Strip(text));
    var d := SafeSendFile(store, data.sessionPath.value, sendOk, deleteAfterSend);
    assert s.effects == [x] + [Say(SignedIn), Disconnect] + d.effects;
    AttemptDeliveredTally(x, SignedIn, d, data.sessionPath.value);
  }

  lemma PasswordPromptTally(data: UserData, store: set<string>, text: string, sendOk: bool, deleteAfterSend: bool)
    requires HasCodeKeys(data)
    ensures TalliesOf(ReceiveCode(data, store, text, PasswordNeeded, sendOk, deleteAfterSend).effects) == Tallies(0, 1, 0, 0)
  {
    Tally([SignInWithCode(data.phone.value, Strip(text))], [Say(PasswordPrompt)]);
  }

  lemma CodeFailedTally(data: UserData, store: set<string>, text: string, signIn: Outcome, sendOk: bool, deleteAfterSend: bool)
    requires HasCodeKeys(data) && signIn != Ok && signIn != PasswordNeeded
    ensures TalliesOf(ReceiveCode(data, store, text, signIn, sendOk, deleteAfterSend).effects) == Tallies(0, 1, 1, 0)
  {
    var s := ReceiveCode(data, store, text, signIn, sendOk, deleteAfterSend);
    var x := SignInWithCode(data.phone.value, Strip(text));
    assert s.effects == [x] + [Say(CodeFailureReply(signIn)), Disconnect];
    AttemptTally(x, CodeFailureReply(signIn));
  }

  /** `receive_2fa` signs in once when the client and the session path are
      present; it then disconnects in every case (twice after a successful
      sign-in: once in the `try` body and once in `finally`) and delivers
      exactly when the sign-in succeeds. */
  lemma Receive2FATrace(data: UserData, store: set<string>, text: string, signIn: Outcome,
                        sendOk: bool, deleteAfterSend: bool)
    ensures var s := Receive2FA(data, store, text, signIn, sendOk, deleteAfterSend);
            TalliesOf(s.effects) == Tallies(
              0,
              if HasPasswordKeys(data) then 1 else 0,
              if !HasPasswordKeys(data) then 0 else if signIn == Ok then 2 else 1,
              if HasPasswordKeys(data) && signIn == Ok then 1 else 0)
  {
    if HasPasswordKeys(data) {
      if signIn == Ok {
        PasswordAcceptedTally(data, store, text, sendOk, deleteAfterSend);
      } else {
        PasswordFailedTally(data, store, text, signIn, sendOk, deleteAfterSend);
      }
    }
  }

  lemma PasswordAcceptedTally(data: UserData, store: set<string>, text: string, sendOk: bool, deleteAfterSend: bool)
    requires HasPasswordKeys(data)
    ensures TalliesOf(Receive2FA(data, store, text, Ok, sendOk, deleteAfterSend).effects) == Tallies(0, 1, 2, 1)
  {
    var s := Receive2FA(data, store, text, Ok, sendOk, deleteAfterSend);
    var x := SignInWithPassword(Strip(text));
    var d := SafeSendFile(store, data.sessionPath.value, sendOk, deleteAfterSend);
    assert s.effects == [x] + [Say(PasswordAccepted), Disconnect] + d.effects + [Disconnect];
    AttemptDeliveredTally(x, PasswordAccepted, d, data.sessionPath.value);
  }

  lemma PasswordFailedTally(data: UserData, store: set<string>, text: string, signIn: Outcome, sendOk: bool, deleteAfterSend: bool)
    requires HasPasswordKeys(data) && signIn != Ok
    ensures TalliesOf(Receive2FA(data, store, text, signIn, sendOk, deleteAfterSend).effects) == Tallies(0, 1, 1, 0)
  {
    var s := Receive2FA(data, store, text, signIn, sendOk, deleteAfterSend);
    var x := SignInWithPassword(Strip(text));
    var reply := if signIn == PasswordNeeded then PasswordIncorrect else PasswordFailed;
    assert s.effects == [x] + [Say(reply), Disconnect];
    AttemptTally(x, reply);
  }

  /** `cancel_cmd` disconnects exactly when a client is present and makes no
      other call. */
  lemma CancelTrace(data: UserData, store: set<string>)
    ensures TalliesOf(CancelCmd(data, store).effects) == Tallies(0, 0, if data.client.Some? then 1 else 0, 0)
  {
    var disconnect := if data.client.Some? then [Disconnect] else [];
    Tally([Say(Cancelled)], disconnect);
  }
}
