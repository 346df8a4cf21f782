/** The relevance-score store: sparse (client, advertiser) -> score rows, read
    with a default of 0 and written by upsert. */
module Scores {
  import opened Common
  import opened Models
  import opened Store

  predicate RowFor(row: ScoreRow, clientId: ClientId, advertiserId: AdvertiserId) {
    row.clientId == clientId && row.advertiserId == advertiserId
  }

  /** The position of the row for this pair, if there is one. */
  function IndexOfScore(rows: seq<ScoreRow>, clientId: ClientId, advertiserId: AdvertiserId): (r: Option<nat>)
    ensures r.Some? ==> r.value < |rows| && RowFor(rows[r.value], clientId, advertiserId)
    ensures r.None? ==> forall i :: 0 <= i < |rows| ==> !RowFor(rows[i], clientId, advertiserId)
  {
    if rows == [] then None
    else if RowFor(rows[0], clientId, advertiserId) then Some(0)
    else match IndexOfScore(rows[1..], clientId, advertiserId)
      case None => None
      case Some(k) => Some(k + 1)
  }

  /** The stored score of a pair; with unique pairs it is the score of THE row of that pair. */
  function ScoreOf(rows: seq<ScoreRow>, clientId: ClientId, advertiserId: AdvertiserId): (r: Option<nat>)
    ensures r.None? <==> forall i :: 0 <= i < |rows| ==> !RowFor(rows[i], clientId, advertiserId)
    ensures ScorePairsUnique(rows) ==>
              forall i :: 0 <= i < |rows| && RowFor(rows[i], clientId, advertiserId) ==> r == Some(rows[i].score)
  {
    match IndexOfScore(rows, clientId, advertiserId)
    case None => None
    case Some(i) => Some(rows[i].score)
  }

  /** The score lookup: a pair with no row has score 0. */
  function GetMlScore(rows: seq<ScoreRow>, clientId: ClientId, advertiserId: AdvertiserId): (r: ScoreRow)
    ensures r.clientId == clientId && r.advertiserId == advertiserId
    ensures (forall i :: 0 <= i < |rows| ==> !RowFor(rows[i], clientId, advertiserId)) ==> r.score == 0
    ensures ScorePairsUnique(rows) ==>
              forall i :: 0 <= i < |rows| && RowFor(rows[i], clientId, advertiserId) ==> r.score == rows[i].score
  {
    match ScoreOf(rows, clientId, advertiserId)
    case None => ScoreRow(clientId, advertiserId, 0)
    case Some(s) => ScoreRow(clientId, advertiserId, s)
  }

  /** The largest score in the whole table (0 for an empty table). */
  function MaxScore(rows: seq<ScoreRow>): (m: nat)
    ensures forall i :: 0 <= i < |rows| ==> rows[i].score <= m
    ensures rows != [] ==> exists i :: 0 <= i < |rows| && rows[i].score == m
    ensures rows == [] ==> m == 0
  {
    if rows == [] then 0
    else
      var rest := MaxScore(rows[1..]);
      if rows[0].score >= rest then rows[0].score
      else
        assert rows[1..] != [];
        rest
  }

  /** The table after an upsert: the pair's row gets the new score, or a row is added. */
  function Upsert(rows: seq<ScoreRow>, row: ScoreRow): (r: seq<ScoreRow>)
  {
    match IndexOfScore(rows, row.clientId, row.advertiserId)
    case Some(i) => rows[i := rows[i].(score := row.score)]
    case None => rows + [row]
  }

  /** An upsert keeps one row per pair, makes the lookup return the new score,
      leaves every other pair's score alone, and adds a row only for a new pair. */
  lemma UpsertCorrect(rows: seq<ScoreRow>, row: ScoreRow)
    requires ScorePairsUnique(rows)
    ensures ScorePairsUnique(Upsert(rows, row))
    ensures ScoreOf(Upsert(rows, row), row.clientId, row.advertiserId) == Some(row.score)
    ensures forall c: ClientId, a: AdvertiserId :: (c, a) != (row.clientId, row.advertiserId) ==>
              ScoreOf(Upsert(rows, row), c, a) == ScoreOf(rows, c, a)
    ensures |Upsert(rows, row)| == if ScoreOf(rows, row.clientId, row.advertiserId).Some? then |rows| else |rows| + 1
  {
    var r := Upsert(rows, row);
    match IndexOfScore(rows, row.clientId, row.advertiserId)
    case Some(i) =>
      assert RowFor(r[i], row.clientId, row.advertiserId);
      forall c: ClientId, a: AdvertiserId | (c, a) != (row.clientId, row.advertiserId)
        ensures ScoreOf(r, c, a) == ScoreOf(rows, c, a)
      {
        match IndexOfScore(rows, c, a)
        case None =>
          assert forall j :: 0 <= j < |r| ==> !RowFor(r[j], c, a);
        case Some(k) =>
          assert RowFor(r[k], c, a);
      }
    case None =>
      assert RowFor(r[|rows|], row.clientId, row.advertiserId);
      forall c: ClientId, a: AdvertiserId | (c, a) != (row.clientId, row.advertiserId)
        ensures ScoreOf(r, c, a) == ScoreOf(rows, c, a)
      {
        match IndexOfScore(rows, c, a)
        case None =>
          assert forall j :: 0 <= j < |r| ==> !RowFor(r[j], c, a);
        case Some(k) =>
          assert RowFor(r[k], c, a);
      }
  }

  /** An upsert of a row naming an existing client and advertiser keeps the
      score table's foreign keys. */
  lemma UpsertKeepsRefs(rows: seq<ScoreRow>, row: ScoreRow, clients: map<ClientId, Client>,
                        advertisers: map<AdvertiserId, Advertiser>)
    requires ScoreRefsOk(rows, clients, advertisers)
    requires row.clientId in clients && row.advertiserId in advertisers
    ensures ScoreRefsOk(Upsert(rows, row), clients, advertisers)
  {
  }

  /** The upsert: both the client and the advertiser must exist; the pair's row
      is then updated in place or inserted. */
  method UpdateMlScore(db: Database, row: ScoreRow) returns (r: Result<ScoreRow>)
    requires db.Valid()
    modifies db`scores
    ensures db.Valid()
    ensures row.clientId !in db.clients ==>
              r == Failure(NotFound(NoClient)) && db.scores == old(db.scores)
    ensures row.clientId in db.clients && row.advertiserId !in db.advertisers ==>
              r == Failure(NotFound(NoAdvertiser)) && db.scores == old(db.scores)
    ensures row.clientId in db.clients && row.advertiserId in db.advertisers ==>
              r == Success(row) && db.scores == Upsert(old(db.scores), row)
  {
    if row.clientId !in db.clients {
      return Failure(NotFound(NoClient));
    }
    if row.advertiserId !in db.advertisers {
      return Failure(NotFound(NoAdvertiser));
    }
    UpsertCorrect(db.scores, row);
    UpsertKeepsRefs(db.scores, row, db.clients, db.advertisers);
    var existing := IndexOfScore(db.scores, row.clientId, row.advertiserId);
    if existing.Some? {
      var i := existing.value;
      db.scores := db.scores[i := db.scores[i].(score := row.score)];
    } else {
      db.scores := db.scores + [row];
    }
    r := Success(row);
  }
}
