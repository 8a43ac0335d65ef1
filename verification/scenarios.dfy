/** Whole conversations, from the `/gensession` command to the end, for any
    accepted phone text and any code or password text. */
module Scenarios {
  import opened Wrappers
  import opened Text
  import opened Phone
  import opened Effects
  import opened Delivery
  import opened Handlers
  import opened Conversation

  /** Every external call returns normally and the document is sent. */
  const AllOk := Oracle(Ok, Ok, Ok, true)

  /** Running one update and then the rest is running them all. */
  lemma RunStep(state: State, data: UserData, store: set<string>, e: Event, rest: seq<Event>, deleteAfterSend: bool)
    ensures var s := Dispatch(state, data, store, e.input, e.oracle, deleteAfterSend);
            var r := Run(s.next, s.data, s.store, rest, deleteAfterSend);
            Run(state, data, store, [e] + rest, deleteAfterSend) == Step(r.next, r.data, r.store, s.effects + r.effects)
  {
    assert ([e] + rest)[1..] == rest;
  }

  /** `/gensession` with no conversation active prompts for the phone. */
  lemma GensessionFromIdle(store: set<string>, o: Oracle, deleteAfterSend: bool)
    ensures Dispatch(End, Cleared, store, Command("gensession"), o, deleteAfterSend)
         == Step(AskPhone, Cleared, store, [Say(PhonePrompt)])
  {
  }

  /** An accepted phone whose code request succeeds moves to WAIT_CODE, and
      its session file is now on disk. */
  lemma PhoneAcceptedStep(text: string, store: set<string>, o: Oracle, deleteAfterSend: bool)
    requires CheckPhone(text).Some? && o.connect == Ok && o.sendCode == Ok
    ensures var s := Dispatch(AskPhone, Cleared, store, Message(text), o, deleteAfterSend);
            var phone := Strip(text);
            && s.next == WaitCode && s.data == Started(phone) && s.store == store + {MakeSessionFilename(phone)}
            && s.effects == [NewClient(MakeSessionFilename(phone)), Say(SendingCode), Connect, RequestCode(phone),
                             Say(CodeSent)]
  {
  }

  /** The code for a started conversation with no password ends it, and the
      session file is sent exactly when it exists. */
  lemma CodeRun(phone: string, code: string, store: set<string>, deleteAfterSend: bool)
    ensures var path := MakeSessionFilename(phone);
            var r := Run(WaitCode, Started(phone), store, [Event(Message(code), AllOk)], deleteAfterSend);
            && r.next == End && r.data == Cleared
            && (Document(path) in r.effects <==> path in store)
            && r.store == SafeSendFile(store, path, true, deleteAfterSend).store
  {
    var e := Event(Message(code), AllOk);
    var s := Dispatch(WaitCode, Started(phone), store, e.input, AllOk, deleteAfterSend);
    assert s == ReceiveCode(Started(phone), store, code, Ok, true, deleteAfterSend);
    RunStep(WaitCode, Started(phone), store, e, [], deleteAfterSend);
    assert [e] + [] == [e];
  }

  /** An accepted phone, then the code of an account without a password:
      the conversation ends and the session file the phone step created is
      sent, then deleted with its journal when the deployment asks for it. */
  lemma PhoneCodeRun(phoneText: string, code: string, store: set<string>, deleteAfterSend: bool)
    requires CheckPhone(phoneText).Some?
    ensures var path := MakeSessionFilename(Strip(phoneText));
            var r := Run(AskPhone, Cleared, store, [Event(Message(phoneText), AllOk), Event(Message(code), AllOk)],
                         deleteAfterSend);
            && r.next == End && r.data == Cleared
            && Document(path) in r.effects
            && r.store == (if deleteAfterSend then store - {path, JournalOf(path)} else store + {path})
  {
    var e2, e3 := Event(Message(phoneText), AllOk), Event(Message(code), AllOk);
    PhoneAcceptedStep(phoneText, store, AllOk, deleteAfterSend);
    CodeRun(Strip(phoneText), code, store + {MakeSessionFilename(Strip(phoneText))}, deleteAfterSend);
    RunStep(AskPhone, Cleared, store, e2, [e3], deleteAfterSend);
    assert [e2] + [e3] == [e2, e3];
  }

  /** An account without a password: `/gensession`, an accepted phone, the
      code. The conversation ends with the data cleared, the session file of
      the phone is sent, and afterwards it is on disk exactly when the
      deployment keeps sent files. */
  lemma SignInWithoutPassword(phoneText: string, code: string, store: set<string>, deleteAfterSend: bool)
    requires CheckPhone(phoneText).Some?
    ensures var path := MakeSessionFilename(Strip(phoneText));
            var r := Run(End, Cleared, store, [Event(Command("gensession"), AllOk), Event(Message(phoneText), AllOk),
                                               Event(Message(code), AllOk)], deleteAfterSend);
            && r.next == End && r.data == Cleared
            && Document(path) in r.effects
            && r.store == (if deleteAfterSend then store - {path, JournalOf(path)} else store + {path})
  {
    var e1, e2, e3 := Event(Command("gensession"), AllOk), Event(Message(phoneText), AllOk), Event(Message(code), AllOk);
    GensessionFromIdle(store, AllOk, deleteAfterSend);
    PhoneCodeRun(phoneText, code, store, deleteAfterSend);
    RunStep(End, Cleared, store, e1, [e2, e3], deleteAfterSend);
    assert [e1] + [e2, e3] == [e1, e2, e3];
  }

  /** The code of an account with a password moves the conversation to
      WAIT_2FA and keeps its data. */
  lemma CodeNeedsPasswordStep(phone: string, code: string, store: set<string>, o: Oracle, deleteAfterSend: bool)
    requires o.signIn == PasswordNeeded
    ensures var s := Dispatch(WaitCode, Started(phone), store, Message(code), o, deleteAfterSend);
            && s.next == Wait2FA && s.data == Started(phone) && s.store == store
            && s.effects == [SignInWithCode(phone, Strip(code)), Say(PasswordPrompt)]
  {
    var s := Dispatch(WaitCode, Started(phone), store, Message(code), o, deleteAfterSend);
    assert s == ReceiveCode(Started(phone), store, code, o.signIn, o.sendOk, deleteAfterSend);
  }

  /** The right password ends the conversation, and the session file is sent
      exactly when it exists. */
  lemma PasswordRun(phone: string, password: string, store: set<string>, deleteAfterSend: bool)
    ensures var path := MakeSessionFilename(phone);
            var r := Run(Wait2FA, Started(phone), store, [Event(Message(password), AllOk)], deleteAfterSend);
            && r.next == End && r.data == Cleared
            && (Document(path) in r.effects <==> path in store)
            && r.store == SafeSendFile(store, path, true, deleteAfterSend).store
  {
    var e := Event(Message(password), AllOk);
    var s := Dispatch(Wait2FA, Started(phone), store, e.input, AllOk, deleteAfterSend);
    assert s == Receive2FA(Started(phone), store, password, Ok, true, deleteAfterSend);
    RunStep(Wait2FA, Started(phone), store, e, [], deleteAfterSend);
    assert [e] + [] == [e];
  }

  /** The outcomes when the account has a password: the code is answered with
      a password request. */
  const NeedsPassword := Oracle(Ok, Ok, PasswordNeeded, true)

  /** From WAIT_CODE, a code answered with a password request and then the
      right password end the conversation, and the session file is sent
      exactly when it exists. */
  lemma CodeThenPasswordRun(phone: string, code: string, password: string, store: set<string>,
                            deleteAfterSend: bool)
    ensures var path := MakeSessionFilename(phone);
            var r := Run(WaitCode, Started(phone), store,
                         [Event(Message(code), NeedsPassword), Event(Message(password), AllOk)], deleteAfterSend);
            && r.next == End && r.data == Cleared
            && (Document(path) in r.effects <==> path in store)
            && r.store == SafeSendFile(store, path, true, deleteAfterSend).store
  {
    var e3, e4 := Event(Message(code), NeedsPassword), Event(Message(password), AllOk);
    CodeNeedsPasswordStep(phone, code, store, NeedsPassword, deleteAfterSend);
    PasswordRun(phone, password, store, deleteAfterSend);
    RunStep(WaitCode, Started(phone), store, e3, [e4], deleteAfterSend);
    assert [e3] + [e4] == [e3, e4];
  }

  /** An accepted phone, the code of an account with a password, the
      password: the conversation ends and the session file the phone step
      created is sent, then deleted with its journal when the deployment asks
      for it. */
  lemma PhoneCodePasswordRun(phoneText: string, code: string, password: string, store: set<string>,
                             deleteAfterSend: bool)
    requires CheckPhone(phoneText).Some?
    ensures var path := MakeSessionFilename(Strip(phoneText));
            var r := Run(AskPhone, Cleared, store, [Event(Message(phoneText), AllOk), Event(Message(code), NeedsPassword),
                                                    Event(Message(password), AllOk)], deleteAfterSend);
            && r.next == End && r.data == Cleared
            && Document(path) in r.effects
            && r.store == (if deleteAfterSend then store - {path, JournalOf(path)} else store + {path})
  {
    var e2, e3, e4 := Event(Message(phoneText), AllOk), Event(Message(code), NeedsPassword), Event(Message(password), AllOk);
    PhoneAcceptedStep(phoneText, store, AllOk, deleteAfterSend);
    CodeThenPasswordRun(Strip(phoneText), code, password, store + {MakeSessionFilename(Strip(phoneText))}, deleteAfterSend);
    RunStep(AskPhone, Cleared, store, e2, [e3, e4], deleteAfterSend);
    assert [e2] + [e3, e4] == [e2, e3, e4];
  }

  /** An account with a password: `/gensession`, an accepted phone, the code,
      the password. The conversation ends with the data cleared, the session
      file of the phone is sent, and afterwards it is on disk exactly when the
      deployment keeps sent files. */
  lemma SignInWithPassword(phoneText: string, code: string, password: string, store: set<string>,
                           deleteAfterSend: bool)
    requires CheckPhone(phoneText).Some?
    ensures var path := MakeSessionFilename(Strip(phoneText));
            var r := Run(End, Cleared, store, [Event(Command("gensession"), AllOk), Event(Message(phoneText), AllOk),
                                               Event(Message(code), NeedsPassword), Event(Message(password), AllOk)],
                         deleteAfterSend);
            && r.next == End && r.data == Cleared
            && Document(path) in r.effects
            && r.store == (if deleteAfterSend then store - {path, JournalOf(path)} else store + {path})
  {
    var e1, e2 := Event(Command("gensession"), AllOk), Event(Message(phoneText), AllOk);
    var e3, e4 := Event(Message(code), NeedsPassword), Event(Message(password), AllOk);
    GensessionFromIdle(store, AllOk, deleteAfterSend);
    PhoneCodePasswordRun(phoneText, code, password, store, deleteAfterSend);
    RunStep(End, Cleared, store, e1, [e2, e3, e4], deleteAfterSend);
    assert [e1] + [e2, e3, e4] == [e1, e2, e3, e4];
  }

  /** From WAIT_CODE, a rejected code ends the conversation and leaves the
      directory as it was. */
  lemma RejectedCodeRun(phone: string, code: string, store: set<string>, o: Oracle, deleteAfterSend: bool)
    requires o.signIn == CodeInvalid || o.signIn == CodeExpired || o.signIn == Other
    ensures var r := Run(WaitCode, Started(phone), store, [Event(Message(code), o)], deleteAfterSend);
            && r.next == End && r.data == Cleared && r.store == store
            && Document(MakeSessionFilename(phone)) !in r.effects
  {
    var e := Event(Message(code), o);
    RejectedCodeEnds(phone, code, store, o, deleteAfterSend);
    RunStep(WaitCode, Started(phone), store, e, [], deleteAfterSend);
    assert [e] + [] == [e];
  }

  /** A login that fails at the code leaves the session file on disk: the
      phone step created it and nothing delivers or deletes it. */
  lemma FailedLoginKeepsFile(phoneText: string, code: string, store: set<string>, o: Oracle, deleteAfterSend: bool)
    requires CheckPhone(phoneText).Some? && o.connect == Ok && o.sendCode == Ok
    requires o.signIn == CodeInvalid || o.signIn == CodeExpired || o.signIn == Other
    ensures var path := MakeSessionFilename(Strip(phoneText));
            var r := Run(AskPhone, Cleared, store, [Event(Message(phoneText), o), Event(Message(code), o)],
                         deleteAfterSend);
            && r.next == End && r.data == Cleared
            && r.store == store + {path}
            && Document(path) !in r.effects
  {
    var phone := Strip(phoneText);
    var path := MakeSessionFilename(phone);
    var e1, e2 := Event(Message(phoneText), o), Event(Message(code), o);
    PhoneAcceptedStep(phoneText, store, o, deleteAfterSend);
    RejectedCodeRun(phone, code, store + {path}, o, deleteAfterSend);
    RunStep(AskPhone, Cleared, store, e1, [e2], deleteAfterSend);
    assert [e1] + [e2] == [e1, e2];
  }


  /** A rejected code ends the conversation: the client is disconnected, the
      matching apology is sent, and nothing is delivered. */
  lemma RejectedCodeEnds(phone: string, code: string, store: set<string>, o: Oracle, deleteAfterSend: bool)
    requires o.signIn == CodeInvalid || o.signIn == CodeExpired || o.signIn == Other
    ensures var s := Dispatch(WaitCode, Started(phone), store, Message(code), o, deleteAfterSend);
            && s.next == End && s.data == Cleared && s.store == store
            && Say(CodeFailureReply(o.signIn)) in s.effects
            && Disconnect in s.effects
            && Deliveries(s.effects) == 0
            && Document(MakeSessionFilename(phone)) !in s.effects
  {
    var s := Dispatch(WaitCode, Started(phone), store, Message(code), o, deleteAfterSend);
    assert s == ReceiveCode(Started(phone), store, code, o.signIn, o.sendOk, deleteAfterSend);
    assert s.effects == [SignInWithCode(phone, Strip(code)), Say(CodeFailureReply(o.signIn)), Disconnect];
    CodeFailedTally(Started(phone), store, code, o.signIn, o.sendOk, deleteAfterSend);
  }

  /** `/gensession` while a conversation is active reaches no handler. */
  lemma GensessionWhileActiveIgnored(state: State, data: UserData, store: set<string>, o: Oracle,
                                     deleteAfterSend: bool)
    requires state != End
    ensures Dispatch(state, data, store, Command("gensession"), o, deleteAfterSend) == Step(state, data, store, [])
  {
  }

  /** `/cancel` in the middle of a conversation releases its client, and a
      following `/gensession` starts afresh from the phone prompt. */
  lemma CancelThenRestart(state: State, phone: string, store: set<string>, o: Oracle, deleteAfterSend: bool)
    requires state == WaitCode || state == Wait2FA
    ensures var r := Run(state, Started(phone), store, [Event(Command("cancel"), o), Event(Command("gensession"), o)],
                         deleteAfterSend);
            && r.next == AskPhone && r.data == Cleared && r.store == store
            && Disconnect in r.effects
            && r.effects[|r.effects| - 1] == Say(PhonePrompt)
  {
    var e1, e2 := Event(Command("cancel"), o), Event(Command("gensession"), o);
    var s1 := Dispatch(state, Started(phone), store, e1.input, o, deleteAfterSend);
    assert s1 == CancelCmd(Started(phone), store);
    GensessionFromIdle(store, o, deleteAfterSend);
    RunStep(End, Cleared, store, e2, [], deleteAfterSend);
    RunStep(state, Started(phone), store, e1, [e2], deleteAfterSend);
    assert [e2] + [] == [e2];
    assert [e1] + [e2] == [e1, e2];
  }

  /** A SessionPasswordNeededError after the password ends the conversation
      after one sign-in attempt. */
  lemma WrongPasswordStep(phone: string, text: string, store: set<string>, o: Oracle, deleteAfterSend: bool)
    requires o.signIn == PasswordNeeded
    ensures var s := Dispatch(Wait2FA, Started(phone), store, Message(text), o, deleteAfterSend);
            && s.next == End && s.data == Cleared && s.store == store
            && SignIns(s.effects) == 1
            && Say(PasswordIncorrect) in s.effects
  {
    var s := Dispatch(Wait2FA, Started(phone), store, Message(text), o, deleteAfterSend);
    assert s == Receive2FA(Started(phone), store, text, o.signIn, o.sendOk, deleteAfterSend);
    PasswordFailedTally(Started(phone), store, text, o.signIn, o.sendOk, deleteAfterSend);
  }

  /** A SessionPasswordNeededError after the password ends the conversation:
      a second try is plain text
      outside any conversation and reaches no handler, so only one sign-in is
      attempted. */
  lemma WrongPasswordEnds(phone: string, first: string, second: string, store: set<string>, o: Oracle,
                          deleteAfterSend: bool)
    requires o.signIn == PasswordNeeded
    ensures var r := Run(Wait2FA, Started(phone), store, [Event(Message(first), o), Event(Message(second), o)],
                         deleteAfterSend);
            && r.next == End && r.data == Cleared && r.store == store
            && SignIns(r.effects) == 1
            && Say(PasswordIncorrect) in r.effects
  {
    var e1, e2 := Event(Message(first), o), Event(Message(second), o);
    var s1 := Dispatch(Wait2FA, Started(phone), store, e1.input, o, deleteAfterSend);
    WrongPasswordStep(phone, first, store, o, deleteAfterSend);
    RunStep(End, Cleared, store, e2, [], deleteAfterSend);
    RunStep(Wait2FA, Started(phone), store, e1, [e2], deleteAfterSend);
    assert [e2] + [] == [e2];
    assert [e1] + [e2] == [e1, e2];
    assert s1.effects + [] == s1.effects;
  }
}
