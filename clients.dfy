/** The client store: lookup by id and the bulk upsert. */
module Clients {
  import opened Common
  import opened Models
  import opened Store

  /** Lookup by primary key. */
  function GetClient(clients: map<ClientId, Client>, id: ClientId): (r: Result<Client>)
    ensures r.Failure? <==> id !in clients
    ensures r.Failure? ==> r.error == NotFound(NoClient)
    ensures r.Success? ==> r.value == clients[id]
  {
    if id in clients then Success(clients[id]) else Failure(NotFound(NoClient))
  }

  /** The table after upserting a batch entry by entry, in order. */
  function ApplyBatch(m: map<ClientId, Client>, batch: seq<Client>): map<ClientId, Client>
    decreases |batch|
  {
    if batch == [] then m
    else
      var last := batch[|batch| - 1];
      ApplyBatch(m, batch[..|batch| - 1])[last.id := last]
  }

  /** After a batch: an id of the batch holds its LAST entry, any other id is
      exactly as before, and no id appears that was in neither. */
  lemma {:induction false} ApplyBatchContents(m: map<ClientId, Client>, batch: seq<Client>, k: ClientId)
    ensures k in ApplyBatch(m, batch) <==> k in m || exists i :: 0 <= i < |batch| && batch[i].id == k
    ensures (forall i :: 0 <= i < |batch| ==> batch[i].id != k) && k in m ==>
              ApplyBatch(m, batch)[k] == m[k]
    ensures forall i :: 0 <= i < |batch| && batch[i].id == k &&
                        (forall j :: i < j < |batch| ==> batch[j].id != k) ==>
              ApplyBatch(m, batch)[k] == batch[i]
    decreases |batch|
  {
    if batch != [] {
      var init := batch[..|batch| - 1];
      ApplyBatchContents(m, init, k);
      assert forall i :: 0 <= i < |init| ==> init[i] == batch[i];
      if batch[|batch| - 1].id != k {
        assert (exists i :: 0 <= i < |batch| && batch[i].id == k) ==>
               (exists i :: 0 <= i < |init| && init[i].id == k);
      }
    }
  }

  /** The bulk upsert: an existing id has login, age, location and gender
      overwritten (its id is kept), a new id is inserted; one entry is returned
      per input entry, in input order. */
  method UpdateClient(db: Database, batch: seq<Client>) returns (updated: seq<Client>)
    requires db.Valid()
    requires forall i :: 0 <= i < |batch| ==> ClientOk(batch[i])
    modifies db`clients
    ensures db.Valid()
    ensures updated == batch
    ensures db.clients == ApplyBatch(old(db.clients), batch)
  {
    updated := [];
    var i := 0;
    while i < |batch|
      invariant 0 <= i <= |batch|
      invariant updated == batch[..i]
      invariant db.clients == ApplyBatch(old(db.clients), batch[..i])
      invariant forall k :: k in db.clients ==> db.clients[k].id == k && ClientOk(db.clients[k])
      invariant old(db.clients).Keys <= db.clients.Keys
    {
      var data := batch[i];
      assert batch[..i + 1][..i] == batch[..i];
      if data.id in db.clients {
        var existing := db.clients[data.id];
        db.clients := db.clients[data.id := existing.(login := data.login, age := data.age,
                                                      location := data.location, gender := data.gender)];
        updated := updated + [db.clients[data.id]];
      } else {
        db.clients := db.clients[data.id := data];
        updated := updated + [data];
      }
      i := i + 1;
    }
    assert batch[..|batch|] == batch;
    EventRefsKept(db.impressions, old(db.clients), db.clients, db.campaigns, db.campaigns);
    EventRefsKept(db.clicks, old(db.clients), db.clients, db.campaigns, db.campaigns);
  }
}
