/** The handler table of `setup_application` (bot.py): which handler runs for
    which update in which conversation state, and the chat's life as a
    sequence of updates. */
module Conversation {
  import opened Wrappers
  import opened Text
  import opened Phone
  import opened Effects
  import opened Delivery
  import opened Handlers

  /** An update as the handlers see it: a bot command, named without its `/`,
      or a plain text message. */
  datatype Input = Command(name: string) | Message(body: string)

  /** The handler an update reaches. */
  datatype Route = ToStart | ToGensession | ToPhone | ToCode | To2FA | ToCancel | Ignored

  /** The outcomes of the external calls a handler may make for one update. */
  datatype Oracle = Oracle(connect: Outcome, sendCode: Outcome, signIn: Outcome, sendOk: bool)

  /** The application's handlers in registration order: `/start`; then the
      conversation, whose entry point is `/gensession`, whose states accept
      non-command text, and whose fallback is `/cancel`; then `/cancel` on its
      own. The first handler that accepts an update handles it. */
  function RouteOf(state: State, input: Input): (r: Route)
    ensures input == Command("cancel") ==> r == ToCancel
    ensures input == Command("start") ==> r == ToStart
    ensures r == ToGensession <==> state == End && input == Command("gensession")
    ensures r == ToPhone <==> state == AskPhone && input.Message?
    ensures r == ToCode <==> state == WaitCode && input.Message?
    ensures r == To2FA <==> state == Wait2FA && input.Message?
    ensures input.Message? && state == End ==> r == Ignored
  {
    match input
    case Command(name) =>
      if name == "start" then ToStart
      else if name == "cancel" then ToCancel
      else if name == "gensession" && state == End then ToGensession
      else Ignored
    case Message(_) =>
      match state
      case AskPhone => ToPhone
      case WaitCode => ToCode
      case Wait2FA => To2FA
      case End => Ignored
  }

  /** One update for a chat in `state` with data `data`. */
  function Dispatch(state: State, data: UserData, store: set<string>, input: Input, o: Oracle,
                    deleteAfterSend: bool): (s: Step)
    ensures RouteOf(state, input) == ToStart ==> s.next == state && s.data == data
    ensures RouteOf(state, input) == Ignored ==> s == Step(state, data, store, [])
    ensures input == Command("cancel") ==> s.next == End && s.data == Cleared
    ensures forall f :: f in s.store && f !in store ==>
              && RouteOf(state, input) == ToPhone && CheckPhone(input.body).Some?
              && f == MakeSessionFilename(CheckPhone(input.body).value)
    ensures forall f :: f in store && f !in s.store ==>
              data.sessionPath.Some? && (f == data.sessionPath.value || f == JournalOf(data.sessionPath.value))
  {
    match RouteOf(state, input)
    case ToStart => Step(state, data, store, [Say(Welcome)])
    case ToGensession => GensessionStart(data, store)
    case ToPhone => ReceivePhone(data, store, input.body, o.connect, o.sendCode)
    case ToCode => ReceiveCode(data, store, input.body, o.signIn, o.sendOk, deleteAfterSend)
    case To2FA => Receive2FA(data, store, input.body, o.signIn, o.sendOk, deleteAfterSend)
    case ToCancel => CancelCmd(data, store)
    case Ignored => Step(state, data, store, [])
  }

  /** What the user's data holds in each state when the chat starts with
      empty data: nothing outside WAIT_CODE and WAIT_2FA, and inside them the
      accepted phone with its client and session file. */
  ghost predicate Consistent(state: State, data: UserData) {
    match state
    case End => data == Cleared
    case AskPhone => data == Cleared
    case WaitCode => data.phone.Some? && Accepted(data.phone.value) && data == Started(data.phone.value)
    case Wait2FA => data.phone.Some? && Accepted(data.phone.value) && data == Started(data.phone.value)
  }

  /** A phone the check of `receive_phone` lets through. */
  ghost predicate Accepted(phone: string) {
    CheckPhone(phone) == Some(phone)
  }

  /** The phone stored by `receive_phone` is one the check accepts as is. */
  lemma StoredPhoneAccepted(text: string)
    requires CheckPhone(text).Some?
    ensures Accepted(CheckPhone(text).value)
  {
    StripIdempotent(text);
  }

  /** Every update keeps the user's data consistent with its state. */
  lemma DispatchKeepsConsistent(state: State, data: UserData, store: set<string>, input: Input, o: Oracle,
                                deleteAfterSend: bool)
    requires Consistent(state, data)
    ensures var s := Dispatch(state, data, store, input, o, deleteAfterSend);
            Consistent(s.next, s.data)
  {
    var s := Dispatch(state, data, store, input, o, deleteAfterSend);
    if RouteOf(state, input) == ToPhone && CheckPhone(input.body).Some? {
      StoredPhoneAccepted(input.body);
    }
  }

  /** From a consistent chat no update meets the "session expired" branches of
      `receive_code` and `receive_2fa`: those checks never fire. */
  lemma ConsistentNeverExpires(state: State, data: UserData, store: set<string>, input: Input, o: Oracle,
                               deleteAfterSend: bool)
    requires Consistent(state, data)
    ensures Say(SessionExpired) !in Dispatch(state, data, store, input, o, deleteAfterSend).effects
  {
    var s := Dispatch(state, data, store, input, o, deleteAfterSend);
    match RouteOf(state, input)
    case ToPhone =>
      assert s == ReceivePhone(data, store, input.body, o.connect, o.sendCode);
      PhoneNeverExpires(data, store, input.body, o.connect, o.sendCode);
    case ToCode =>
      assert s == ReceiveCode(data, store, input.body, o.signIn, o.sendOk, deleteAfterSend);
    case To2FA =>
      assert s == Receive2FA(data, store, input.body, o.signIn, o.sendOk, deleteAfterSend);
    case ToStart =>
      assert s.effects == [Say(Welcome)];
    case ToCancel =>
      assert s == CancelCmd(data, store);
    case _ =>
  }

  /** `receive_phone` never answers "session expired". */
  lemma PhoneNeverExpires(data: UserData, store: set<string>, text: string, connect: Outcome, sendCode: Outcome)
    ensures Say(SessionExpired) !in ReceivePhone(data, store, text, connect, sendCode).effects
  {
    var s := ReceivePhone(data, store, text, connect, sendCode);
    assert forall e :: e in s.effects ==> e != Say(SessionExpired);
  }

  function Holds(data: UserData): (n: nat) {
    if data.client.Some? then 1 else 0
  }

  /** Client bookkeeping for one update: a client held before the update or
      created by it is still held afterwards or has been disconnected. */
  lemma DispatchReleasesClients(state: State, data: UserData, store: set<string>, input: Input, o: Oracle,
                                deleteAfterSend: bool)
    requires Consistent(state, data)
    ensures var s := Dispatch(state, data, store, input, o, deleteAfterSend);
            && Holds(data) + NewClients(s.effects) <= Holds(s.data) + Disconnects(s.effects)
            && Deliveries(s.effects) <= SignIns(s.effects)
            && Deliveries(s.effects) <= 1
  {
    match RouteOf(state, input)
    case ToStart =>
      assert Dispatch(state, data, store, input, o, deleteAfterSend).effects == [Say(Welcome)];
    case ToGensession =>
    case ToPhone => ReceivePhoneTrace(data, store, input.body, o.connect, o.sendCode);
    case ToCode => ReceiveCodeTrace(data, store, input.body, o.signIn, o.sendOk, deleteAfterSend);
    case To2FA => Receive2FATrace(data, store, input.body, o.signIn, o.sendOk, deleteAfterSend);
    case ToCancel => CancelTrace(data, store);
    case Ignored =>
  }

  datatype Event = Event(input: Input, oracle: Oracle)

  /** A chat's updates handled one after another, in order. */
  function Run(state: State, data: UserData, store: set<string>, events: seq<Event>, deleteAfterSend: bool): (r: Step)
    decreases |events|
  {
    if |events| == 0 then
      Step(state, data, store, [])
    else
      var s := Dispatch(state, data, store, events[0].input, events[0].oracle, deleteAfterSend);
      var rest := Run(s.next, s.data, s.store, events[1..], deleteAfterSend);
      Step(rest.next, rest.data, rest.store, s.effects + rest.effects)
  }

  /** The session file of a chat waiting for a code or a password is on disk:
      `receive_phone` created it, and only a delivery, which ends the
      conversation, removes it. */
  ghost predicate FileKept(state: State, data: UserData, store: set<string>) {
    (state == WaitCode || state == Wait2FA) ==> data.sessionPath.Some? && data.sessionPath.value in store
  }

  /** Every update keeps the session file of a waiting chat on disk, and so
      never meets the "file not found" branch of `safe_send_file`. */
  lemma DispatchKeepsFile(state: State, data: UserData, store: set<string>, input: Input, o: Oracle,
                          deleteAfterSend: bool)
    requires Consistent(state, data) && FileKept(state, data, store)
    ensures var s := Dispatch(state, data, store, input, o, deleteAfterSend);
            FileKept(s.next, s.data, s.store) && Say(FileNotFound) !in s.effects
  {
    var s := Dispatch(state, data, store, input, o, deleteAfterSend);
    match RouteOf(state, input)
    case ToStart =>
      assert s.effects == [Say(Welcome)];
    case ToGensession =>
      assert s.effects == [Say(PhonePrompt)];
    case ToPhone =>
      assert s == ReceivePhone(data, store, input.body, o.connect, o.sendCode);
      PhoneKeepsFile(data, store, input.body, o.connect, o.sendCode);
      PhoneNeverMissesFile(data, store, input.body, o.connect, o.sendCode);
    case ToCode =>
      assert s == ReceiveCode(data, store, input.body, o.signIn, o.sendOk, deleteAfterSend);
    case To2FA =>
      assert s == Receive2FA(data, store, input.body, o.signIn, o.sendOk, deleteAfterSend);
    case ToCancel =>
      assert s == CancelCmd(data, store);
      assert forall e :: e in s.effects ==> e == Say(Cancelled) || e == Disconnect;
    case Ignored =>
  }

  /** `receive_phone` leaves a chat that waits for the code with its session
      file on disk. */
  lemma PhoneKeepsFile(data: UserData, store: set<string>, text: string, connect: Outcome, sendCode: Outcome)
    ensures var s := ReceivePhone(data, store, text, connect, sendCode);
            FileKept(s.next, s.data, s.store)
  {
  }

  /** `receive_phone` never reports a missing session file. */
  lemma PhoneNeverMissesFile(data: UserData, store: set<string>, text: string, connect: Outcome, sendCode: Outcome)
    ensures Say(FileNotFound) !in ReceivePhone(data, store, text, connect, sendCode).effects
  {
    var s := ReceivePhone(data, store, text, connect, sendCode);
    assert forall e :: e in s.effects ==> e != Say(FileNotFound);
  }


  /** Over any sequence of updates from a consistent chat whose waiting
      session file is on disk, `safe_send_file` always finds the file. */
  lemma {:induction false} RunKeepsFile(state: State, data: UserData, store: set<string>, events: seq<Event>,
                                        deleteAfterSend: bool)
    requires Consistent(state, data) && FileKept(state, data, store)
    ensures var r := Run(state, data, store, events, deleteAfterSend);
            FileKept(r.next, r.data, r.store) && Say(FileNotFound) !in r.effects
    decreases |events|
  {
    if |events| > 0 {
      var e := events[0];
      var s := Dispatch(state, data, store, e.input, e.oracle, deleteAfterSend);
      DispatchKeepsFile(state, data, store, e.input, e.oracle, deleteAfterSend);
      DispatchKeepsConsistent(state, data, store, e.input, e.oracle, deleteAfterSend);
      RunKeepsFile(s.next, s.data, s.store, events[1..], deleteAfterSend);
    }
  }

  /** A chat that starts with no conversation never receives "session file
      not found", whatever the directory held at the start. */
  lemma NeverFileNotFound(store: set<string>, events: seq<Event>, deleteAfterSend: bool)
    ensures Say(FileNotFound) !in Run(End, Cleared, store, events, deleteAfterSend).effects
  {
    RunKeepsFile(End, Cleared, store, events, deleteAfterSend);
  }

  /** Over any sequence of updates from a consistent chat, the files that
      appear in the directory are session files, and the files that disappear
      are session files or their journals. */
  lemma {:induction false} RunTouchesOnlySessionFiles(state: State, data: UserData, store: set<string>,
                                                      events: seq<Event>, deleteAfterSend: bool)
    requires Consistent(state, data)
    ensures var r := Run(state, data, store, events, deleteAfterSend);
            && (forall f :: f in r.store && f !in store ==> IsSessionName(f))
            && (forall f :: f in store && f !in r.store ==> IsSessionName(f) || IsJournalName(f))
    decreases |events|
  {
    if |events| > 0 {
      var e := events[0];
      var s := Dispatch(state, data, store, e.input, e.oracle, deleteAfterSend);
      var r := Run(s.next, s.data, s.store, events[1..], deleteAfterSend);
      assert Run(state, data, store, events, deleteAfterSend).store == r.store;
      DispatchKeepsConsistent(state, data, store, e.input, e.oracle, deleteAfterSend);
      RunTouchesOnlySessionFiles(s.next, s.data, s.store, events[1..], deleteAfterSend);
      forall f | f in r.store && f !in store
        ensures IsSessionName(f)
      {
        if f in s.store {
          assert f == MakeSessionFilename(CheckPhone(e.input.body).value);
        }
      }
      forall f | f in store && f !in r.store
        ensures IsSessionName(f) || IsJournalName(f)
      {
        if f !in s.store {
          assert data.sessionPath == Some(MakeSessionFilename(data.phone.value));
        }
      }
    }
  }

  /** Consistency holds after any sequence of updates. */
  lemma {:induction false} RunKeepsConsistent(state: State, data: UserData, store: set<string>, events: seq<Event>,
                                              deleteAfterSend: bool)
    requires Consistent(state, data)
    ensures var r := Run(state, data, store, events, deleteAfterSend);
            Consistent(r.next, r.data)
    decreases |events|
  {
    if |events| > 0 {
      var s := Dispatch(state, data, store, events[0].input, events[0].oracle, deleteAfterSend);
      DispatchKeepsConsistent(state, data, store, events[0].input, events[0].oracle, deleteAfterSend);
      RunKeepsConsistent(s.next, s.data, s.store, events[1..], deleteAfterSend);
    }
  }

  /** No client is ever lost: over any sequence of updates, every client held
      at the start or created along the way is held at the end or was
      disconnected; and every delivery follows a sign-in. */
  lemma {:induction false} RunReleasesClients(state: State, data: UserData, store: set<string>, events: seq<Event>,
                                              deleteAfterSend: bool)
    requires Consistent(state, data)
    ensures var r := Run(state, data, store, events, deleteAfterSend);
            && Holds(data) + NewClients(r.effects) <= Holds(r.data) + Disconnects(r.effects)
            && Deliveries(r.effects) <= SignIns(r.effects)
    decreases |events|
  {
    if |events| > 0 {
      var e := events[0];
      var s := Dispatch(state, data, store, e.input, e.oracle, deleteAfterSend);
      var rest := Run(s.next, s.data, s.store, events[1..], deleteAfterSend);
      DispatchReleasesClients(state, data, store, e.input, e.oracle, deleteAfterSend);
      DispatchKeepsConsistent(state, data, store, e.input, e.oracle, deleteAfterSend);
      RunReleasesClients(s.next, s.data, s.store, events[1..], deleteAfterSend);
      Tally(s.effects, rest.effects);
    }
  }

  /** A chat that starts with no conversation and ends with none has
      disconnected at least as many clients as it created. */
  lemma ConversationsReleaseClients(store: set<string>, events: seq<Event>, deleteAfterSend: bool)
    requires Run(End, Cleared, store, events, deleteAfterSend).next == End
    ensures var r := Run(End, Cleared, store, events, deleteAfterSend);
            NewClients(r.effects) <= Disconnects(r.effects)
  {
    RunKeepsConsistent(End, Cleared, store, events, deleteAfterSend);
    RunReleasesClients(End, Cleared, store, events, deleteAfterSend);
  }
}
