/** The advertiser store: lookup by id and the bulk upsert. */
module Advertisers {
  import opened Common
  import opened Models
  import opened Store

  /** Lookup by primary key. */
  function GetAdvertiser(advertisers: map<AdvertiserId, Advertiser>, id: AdvertiserId): (r: Result<Advertiser>)
    ensures r.Failure? <==> id !in advertisers
    ensures r.Failure? ==> r.error == NotFound(NoAdvertiser)
    ensures r.Success? ==> r.value == advertisers[id]
  {
    if id in advertisers then Success(advertisers[id]) else Failure(NotFound(NoAdvertiser))
  }

  /** The table after upserting a batch entry by entry, in order. */
  function ApplyBatch(m: map<AdvertiserId, Advertiser>, batch: seq<Advertiser>): map<AdvertiserId, Advertiser>
    decreases |batch|
  {
    if batch == [] then m
    else
      var last := batch[|batch| - 1];
      ApplyBatch(m, batch[..|batch| - 1])[last.id := last]
  }

  /** After a batch: an id of the batch holds its LAST entry's name, any other
      advertiser is exactly as before, and no id appears that was in neither. */
  lemma {:induction false} ApplyBatchContents(m: map<AdvertiserId, Advertiser>, batch: seq<Advertiser>, k: AdvertiserId)
    ensures k in ApplyBatch(m, batch) <==> k in m || exists i :: 0 <= i < |batch| && batch[i].id == k
    ensures (forall i :: 0 <= i < |batch| ==> batch[i].id != k) && k in m ==>
              ApplyBatch(m, batch)[k] == m[k]
    ensures forall i :: 0 <= i < |batch| && batch[i].id == k &&
                        (forall j :: i < j < |batch| ==> batch[j].id != k) ==>
              ApplyBatch(m, batch)[k] == batch[i]
    decreases |batch|
  {
    if batch != [] {
      var init := batch[..|batch| - 1];
      ApplyBatchContents(m, init, k);
      assert forall i :: 0 <= i < |init| ==> init[i] == batch[i];
      if batch[|batch| - 1].id != k {
        assert (exists i :: 0 <= i < |batch| && batch[i].id == k) ==>
               (exists i :: 0 <= i < |init| && init[i].id == k);
      }
    }
  }

  /** The bulk upsert: an existing id has its name overwritten, a new id is
      inserted; one entry is returned per input entry, in input order. */
  method UpdateAdvertiser(db: Database, batch: seq<Advertiser>) returns (updated: seq<Advertiser>)
    requires db.Valid()
    requires forall i :: 0 <= i < |batch| ==> AdvertiserOk(batch[i])
    modifies db`advertisers
    ensures db.Valid()
    ensures updated == batch
    ensures db.advertisers == ApplyBatch(old(db.advertisers), batch)
  {
    updated := [];
    var i := 0;
    while i < |batch|
      invariant 0 <= i <= |batch|
      invariant updated == batch[..i]
      invariant db.advertisers == ApplyBatch(old(db.advertisers), batch[..i])
      invariant forall k :: k in db.advertisers ==> db.advertisers[k].id == k && AdvertiserOk(db.advertisers[k])
      invariant old(db.advertisers).Keys <= db.advertisers.Keys
    {
      var data := batch[i];
      assert batch[..i + 1][..i] == batch[..i];
      if data.id in db.advertisers {
        var existing := db.advertisers[data.id];
        db.advertisers := db.advertisers[data.id := existing.(name := data.name)];
        updated := updated + [db.advertisers[data.id]];
      } else {
        db.advertisers := db.advertisers[data.id := data];
        updated := updated + [data];
      }
      i := i + 1;
    }
    assert batch[..|batch|] == batch;
    assert ScoreRefsOk(db.scores, db.clients, db.advertisers);
  }
}
