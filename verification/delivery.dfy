/** `safe_send_file` (bot.py): send the session file to the chat and, when the
    deployment asks for it, delete the file and its `-journal` companion.
    The working directory is a finite set of file names. */
module Delivery {
  import opened Effects
  import opened Phone

  datatype Sent = Sent(store: set<string>, effects: seq<Effect>)

  /** `sendOk` is whether `send_document` returned normally; `deleteAfterSend`
      is the DELETE_AFTER_SEND setting. */
  function SafeSendFile(store: set<string>, path: string, sendOk: bool, deleteAfterSend: bool): (d: Sent)
    ensures |d.effects| == 2 && d.effects[0] == Deliver(path)
    ensures Document(path) in d.effects <==> path in store && sendOk
    ensures Say(FileNotFound) in d.effects <==> path !in store
    ensures path !in store ==> d.effects[1] == Say(FileNotFound) && d.store == store
    ensures path in store && !sendOk ==> d.effects[1] == Say(FileSendFailed) && d.store == store
    ensures path in store && sendOk && !deleteAfterSend ==> d.store == store
    ensures path in store && sendOk && deleteAfterSend ==> d.store == store - {path, JournalOf(path)}
    ensures forall f :: f != path && f != JournalOf(path) ==> (f in d.store <==> f in store)
    ensures d.store <= store
  {
    if path !in store then
      Sent(store, [Deliver(path), Say(FileNotFound)])
    else if !sendOk then
      Sent(store, [Deliver(path), Say(FileSendFailed)])
    else
      // unlink(missing_ok=True) on the file, then unlink of the journal if it exists
      var store' := if deleteAfterSend then store - {path} - {JournalOf(path)} else store;
      Sent(store', [Deliver(path), Document(path)])
  }

  /** Once a file has been delivered and deleted, delivering it again reports
      that it is missing and sends nothing. */
  lemma SecondSendFindsNothing(store: set<string>, path: string, sendOk: bool)
    requires path in store && sendOk
    ensures var again := SafeSendFile(SafeSendFile(store, path, sendOk, true).store, path, sendOk, true);
            Document(path) !in again.effects && Say(FileNotFound) in again.effects
  {
  }

  /** Deleting a delivered session file never removes the session file of a
      phone that sanitises differently. */
  lemma DeletionSparesOtherSessions(store: set<string>, phone: string, other: string, sendOk: bool)
    requires Sanitize(other) != Sanitize(phone)
    ensures var path := MakeSessionFilename(phone);
            var f := MakeSessionFilename(other);
            f in SafeSendFile(store, path, sendOk, true).store <==> f in store
  {
    SameFileIffSameSanitized(phone, other);
    JournalIsNoSessionFile(phone, other);
  }
}
