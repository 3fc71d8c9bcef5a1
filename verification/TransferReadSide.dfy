/** The Mongo read side of transfers against the write-side store, over every run of the protocol. */
module TransferReadSide {
  import opened Common
  import opened Participants
  import opened Transfers
  import opened Protocol

  // ---------- the collection ----------

  function FindTransfer(docs: seq<Transfer>, id: string): Option<Transfer> {
    if docs == [] then None
    else if docs[0].terms.id == id then Some(docs[0])
    else FindTransfer(docs[1..], id)
  }

  /** What the state event changes in the document of its transfer. */
  function Amend(doc: Transfer, e: TransferStateEvt): Transfer {
    match e
    case TransferPreparedState(_) => doc
    case TransferStateChanged(_, state) => doc.(state := state)
    case TransferFulfiledState(_, _, fulfilment, completed, fulfil) =>
      doc.(fulfilment := fulfilment, completedTimestamp := completed, fulfil := fulfil, state := RECEIVED_FULFIL)
  }

  /** An update goes to the first document of the id. */
  function AmendDocs(docs: seq<Transfer>, id: string, e: TransferStateEvt): seq<Transfer> {
    if docs == [] then []
    else if docs[0].terms.id == id then [Amend(docs[0], e)] + docs[1..]
    else [docs[0]] + AmendDocs(docs[1..], id, e)
  }

  /** The document that the prepare handler inserts, with its own internal state and an empty completion time. */
  function Inserted(t: Transfer): Transfer {
    t.(state := RECEIVED_PREPARE, completedTimestamp := Some(""))
  }

  function ProjectTransfer(docs: seq<Transfer>, e: TransferStateEvt): seq<Transfer> {
    match e
    case TransferPreparedState(t) => docs + [Inserted(t)]
    case TransferStateChanged(id, _) => AmendDocs(docs, id, e)
    case TransferFulfiledState(id, _, _, _, _) => AmendDocs(docs, id, e)
  }

  function ProjectTransfers(log: seq<TransferStateEvt>): seq<Transfer> {
    if log == [] then []
    else ProjectTransfer(ProjectTransfers(log[..|log| - 1]), log[|log| - 1])
  }

  class MongoDbReadsideTransferRepo {
    var docs: seq<Transfer>

    constructor ()
      ensures docs == []
    {
      docs := [];
    }

    method Load(id: string) returns (t: Option<Transfer>)
      ensures t == FindTransfer(docs, id)
    {
      t := FindTransfer(docs, id);
    }

    method InsertTransferState(t: Transfer) returns (ok: bool)
      modifies this
      ensures docs == old(docs) + [t] && ok
    {
      docs := docs + [t];
      ok := true;
    }

    /** Reports success only when the document was really changed. */
    method UpdateOne(id: string, e: TransferStateEvt) returns (ok: bool)
      modifies this
      ensures docs == AmendDocs(old(docs), id, e)
      ensures ok <==> docs != old(docs)
    {
      var i := 0;
      while i < |docs| && docs[i].terms.id != id
        invariant i <= |docs| && docs == old(docs)
        invariant forall k :: 0 <= k < i ==> docs[k].terms.id != id
      {
        i := i + 1;
      }
      AmendDocsAt(docs, i, id, e);
      ok := false;
      if i < |docs| {
        var amended := Amend(docs[i], e);
        ok := amended != docs[i];
        docs := docs[i := amended];
      }
    }
  }

  /** Failures to persist are logged and go no further. */
  class TransferStateEvtHandler {
    const repo: MongoDbReadsideTransferRepo

    constructor (repo: MongoDbReadsideTransferRepo)
      ensures this.repo == repo
    {
      this.repo := repo;
    }

    method MessageHandler(e: TransferStateEvt)
      modifies repo
      ensures repo.docs == ProjectTransfer(old(repo.docs), e)
    {
      match e
      case TransferPreparedState(t) => var _ := repo.InsertTransferState(Inserted(t));
      case TransferStateChanged(id, _) => var _ := repo.UpdateOne(id, e);
      case TransferFulfiledState(id, _, _, _, _) => var _ := repo.UpdateOne(id, e);
    }
  }

  lemma {:induction false} AmendDocsAt(docs: seq<Transfer>, i: nat, id: string, e: TransferStateEvt)
    requires i <= |docs| && forall k :: 0 <= k < i ==> docs[k].terms.id != id
    requires i < |docs| ==> docs[i].terms.id == id
    ensures AmendDocs(docs, id, e) == if i < |docs| then docs[i := Amend(docs[i], e)] else docs
  {
    if i == 0 {
      assert docs != [] ==> docs[0 := Amend(docs[0], e)] == [Amend(docs[0], e)] + docs[1..];
    } else {
      AmendDocsAt(docs[1..], i - 1, id, e);
      assert docs == [docs[0]] + docs[1..];
      assert i < |docs| ==> docs[i := Amend(docs[i], e)] == [docs[0]] + docs[1..][i - 1 := Amend(docs[i], e)];
    }
  }

  lemma {:induction false} FindInserted(docs: seq<Transfer>, t: Transfer, id: string)
    ensures FindTransfer(docs + [t], id)
            == if FindTransfer(docs, id).Some? then FindTransfer(docs, id)
               else if t.terms.id == id then Some(t) else None
  {
    if docs == [] {
    } else {
      FindInserted(docs[1..], t, id);
      assert (docs + [t])[1..] == docs[1..] + [t];
    }
  }

  lemma {:induction false} FindAmended(docs: seq<Transfer>, key: string, e: TransferStateEvt, id: string)
    ensures FindTransfer(AmendDocs(docs, key, e), id)
            == match FindTransfer(docs, id)
               case None => None
               case Some(d) => Some(if key == id then Amend(d, e) else d)
  {
    if docs == [] {
    } else {
      FindAmended(docs[1..], key, e, id);
    }
  }

  // ---------- the read side of a run ----------

  /** The document shows the stored transfer; only the completion time differs, and only before there is one.  An
    * error state that a reference leaked into the store was never logged. */
  ghost predicate Shows(doc: Transfer, u: Transfer) {
    && doc.terms == u.terms && doc.expiration == u.expiration && doc.condition == u.condition
    && doc.prepare == u.prepare && doc.fulfilment == u.fulfilment && doc.fulfil == u.fulfil
    && doc.completedTimestamp == (if u.fulfilment.Some? then u.completedTimestamp else Some(""))
    && doc.state == (if u.state == RECEIVED_ERROR then RESERVED else u.state)
  }

  ghost predicate ReadOk(byReference: bool, s: TransferService, id: string) {
    var doc := FindTransfer(ProjectTransfers(s.log), id);
    && (id !in s.duplicates ==> doc.None?)
    && (id in s.store ==>
          && id in s.duplicates && s.store[id].terms.id == id
          && doc.Some? && Shows(doc.value, s.store[id])
          && (byReference || s.store[id].state != RECEIVED_ERROR))
  }

  /** What an accepted command logs is exactly the change it makes. */
  lemma DecisionShows(x: Crypto, root: Option<Transfer>, isNew: bool, cmd: TransferCmd)
    requires root.Some? ==> root.value.terms.id == TransferKey(cmd)
    ensures match DecideTransfer(x, root, isNew, cmd)
            case TransferAccepted(next, _, TransferPreparedState(t)) =>
              isNew && t == next && next.terms.id == TransferKey(cmd) && Shows(Inserted(t), next)
              && next.state == RECEIVED_PREPARE && cmd.PrepareTransfer?
            case TransferAccepted(next, _, e) =>
              && root.Some? && e.id == next.terms.id == TransferKey(cmd) && next.state != RECEIVED_ERROR
              && forall doc {:trigger Shows(doc, root.value)} ::
                   Shows(doc, root.value) && root.value.state != RECEIVED_ERROR ==> Shows(Amend(doc, e), next)
            case TransferRefused(_, touched) =>
              touched.Some? ==> root.Some? && touched.value == root.value.(state := RECEIVED_ERROR)
                                && root.value.state == RESERVED
    ensures DecideTransfer(x, root, isNew, cmd).TransferAccepted? && root.Some? && !cmd.PrepareTransfer? ==>
              root.value.state != RECEIVED_ERROR
  {
  }

  lemma ReadByOutcome(byReference: bool, s: TransferService, cmd: TransferCmd, o: TransferOutcome, id: string)
    requires ReadOk(byReference, s, id)
    requires match o
             case TransferAccepted(next, _, TransferPreparedState(t)) =>
               TransferKey(cmd) !in s.duplicates && t == next && next.terms.id == TransferKey(cmd)
               && Shows(Inserted(t), next) && next.state == RECEIVED_PREPARE && cmd.PrepareTransfer?
             case TransferAccepted(next, _, e) =>
               && TransferKey(cmd) in s.store && e.id == next.terms.id == TransferKey(cmd)
               && next.state != RECEIVED_ERROR
               && forall doc {:trigger Shows(doc, s.store[TransferKey(cmd)])} ::
                    Shows(doc, s.store[TransferKey(cmd)]) ==> Shows(Amend(doc, e), next)
             case TransferRefused(_, touched) =>
               touched.Some? ==> TransferKey(cmd) in s.store && s.store[TransferKey(cmd)].state == RESERVED
                                 && touched.value == s.store[TransferKey(cmd)].(state := RECEIVED_ERROR)
    ensures ReadOk(byReference, SettleTransfer(byReference, s, cmd, o), id)
  {
    if o.TransferAccepted? {
      var docs := ProjectTransfers(s.log);
      assert (s.log + [o.stateEvt])[..|s.log|] == s.log;
      assert ProjectTransfers(s.log + [o.stateEvt]) == ProjectTransfer(docs, o.stateEvt);
      match o.stateEvt
      case TransferPreparedState(t) => FindInserted(docs, Inserted(t), id);
      case e => FindAmended(docs, TransferKey(cmd), e, id);
    }
  }

  lemma ReadStep(x: Crypto, byReference: bool, s: TransferService, cmd: TransferCmd, id: string)
    requires ReadOk(byReference, s, id) && ReadOk(byReference, s, TransferKey(cmd))
    ensures ReadOk(byReference, SettleTransfer(byReference, s, cmd, DecideOn(x, s, cmd)), id)
  {
    DecisionShows(x, Get(s.store, TransferKey(cmd)), IsNew(s, cmd), cmd);
    ReadByOutcome(byReference, s, cmd, DecideOn(x, s, cmd), id);
  }

  /** In every run the read side shows each stored transfer as it is, whatever expired and was redelivered in
    * between.  With a repository that hands out copies no field differs but an unset completion time; with one
    * that hands out references a transfer in RECEIVED_ERROR still shows as RESERVED. */
  lemma {:induction false} TransferReadSideEqualsStore(x: Crypto, byReference: bool, actions: seq<Action>, id: string)
    ensures ReadOk(byReference, Run(x, byReference, actions).transfers, id)
  {
    hide Decide, Settle, DecideOn;
    if actions == [] {
    } else {
      var init, a := actions[..|actions| - 1], actions[|actions| - 1];
      var s := Run(x, byReference, init);
      TransferReadSideEqualsStore(x, byReference, init, id);
      if Enabled(s, a) && a.HandleTransferCmd? {
        TransferReadSideEqualsStore(x, byReference, init, TransferKey(s.transferCmds[a.i]));
        ReadStep(x, byReference, s.transfers, s.transferCmds[a.i], id);
      }
    }
  }
}
