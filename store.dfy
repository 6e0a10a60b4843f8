/**
 * The three MySQL tables that `initialize_database` creates, and the SQL
 * statements the handlers run on them, as functions on a `Database` value.
 *
 * - `voters`: aadhaar (UNIQUE, CHECK 12 characters, CHECK digits only) ->
 *   row with an AUTO_INCREMENT `id`, name, dob, password hash and QR payload.
 * - `votes`: voter_id (UNIQUE, FOREIGN KEY to `voters.id`) -> the encrypted
 *   candidate.
 * - `candidate_results`: one row per party with its `vote_count`, kept in the
 *   order the rows were inserted.
 *
 * A statement that violates a constraint fails inside `execute_query`, which
 * logs the error and returns `None`: the table is then left as it was.
 */
module Store {
  import opened Wrappers
  import opened Text
  import opened Credentials

  /** `POLITICAL_PARTIES`: the closed list of choices on the ballot. */
  const PoliticalParties: seq<string> := ["AIADMK", "BJP", "DMK", "TVK", "PMK", "VCK", "DMDK"]

  datatype Voter = Voter(id: nat, name: string, dob: string, passwordHash: string, qrCodeData: string)

  datatype TallyRow = TallyRow(candidate: string, count: int)

  datatype Database = Database(
    voters: map<string, Voter>,  // keyed by aadhaar
    votes: map<nat, string>,     // keyed by voter id; the value is the Fernet token
    tally: seq<TallyRow>,        // candidate_results
    nextId: nat)                 // next AUTO_INCREMENT value of voters.id

  /** The ids of the `voters` rows: what `votes.voter_id` may refer to. */
  function VoterIds(db: Database): set<nat>
  {
    set a | a in db.voters :: db.voters[a].id
  }

  /** `SELECT 1 FROM voters WHERE aadhaar = %s` finds a row (`is_registered`). */
  predicate IsRegistered(db: Database, aadhaar: string)
    ensures IsRegistered(db, aadhaar) && Consistent(db) ==> ValidAadhaar(aadhaar)
  {
    aadhaar in db.voters
  }

  /** `SELECT 1 FROM votes WHERE voter_id = %s` finds a row (`has_voted`). */
  predicate HasVoted(db: Database, voterId: nat)
    ensures HasVoted(db, voterId) && Consistent(db) ==> voterId in VoterIds(db)
  {
    voterId in db.votes
  }

  /** Sum of `vote_count` over the rows. */
  function Total(rows: seq<TallyRow>): (t: int)
    ensures (forall i :: 0 <= i < |rows| ==> rows[i].count >= 0) ==> t >= 0
  {
    if rows == [] then 0 else rows[0].count + Total(rows[1..])
  }

  lemma {:induction false} TotalAppend(a: seq<TallyRow>, b: seq<TallyRow>)
    ensures Total(a + b) == Total(a) + Total(b)
  {
    if a == [] {
      assert a + b == b;
    } else {
      assert (a + b)[1..] == a[1..] + b;
      TotalAppend(a[1..], b);
    }
  }

  /** Taking row `i` out of a tally takes its count out of the total. */
  lemma TotalWithout(b: seq<TallyRow>, i: nat)
    requires i < |b|
    ensures Total(b[..i] + b[i + 1..]) == Total(b) - b[i].count
  {
    assert b[..i] + b[i..] == b;
    TotalAppend(b[..i], b[i..]);
    assert b[i..][1..] == b[i + 1..];
    TotalAppend(b[..i], b[i + 1..]);
  }

  lemma MultisetWithout(b: seq<TallyRow>, i: nat)
    requires i < |b|
    ensures multiset(b[..i] + b[i + 1..]) == multiset(b) - multiset{b[i]}
  {
    assert b == b[..i] + [b[i]] + b[i + 1..];
  }

  /** The total does not depend on the order of the rows. */
  lemma {:induction false} TotalPermutation(a: seq<TallyRow>, b: seq<TallyRow>)
    requires multiset(a) == multiset(b)
    ensures Total(a) == Total(b)
  {
    if a == [] {
      assert |multiset(b)| == 0;
    } else {
      assert a == [a[0]] + a[1..];
      assert a[0] in multiset(b);
      var i :| 0 <= i < |b| && b[i] == a[0];
      TotalWithout(b, i);
      MultisetWithout(b, i);
      TotalPermutation(a[1..], b[..i] + b[i + 1..]);
    }
  }

  /** Number of rows whose `candidate_name` is `name`. */
  function Occurrences(rows: seq<TallyRow>, name: string): nat
  {
    if rows == [] then 0 else (if rows[0].candidate == name then 1 else 0) + Occurrences(rows[1..], name)
  }

  /** The rows `INSERT INTO candidate_results (candidate_name)` adds, one per party, count defaulting to 0. */
  function SeedRows(parties: seq<string>): (rows: seq<TallyRow>)
    ensures |rows| == |parties|
    ensures forall i :: 0 <= i < |rows| ==> rows[i] == TallyRow(parties[i], 0)
  {
    if parties == [] then [] else [TallyRow(parties[0], 0)] + SeedRows(parties[1..])
  }

  /** `UPDATE candidate_results SET vote_count = vote_count + 1 WHERE candidate_name = %s`. */
  function Bump(rows: seq<TallyRow>, name: string): (r: seq<TallyRow>)
    ensures |r| == |rows|
    ensures forall i :: 0 <= i < |rows| ==>
      && r[i].candidate == rows[i].candidate
      && r[i].count == if rows[i].candidate == name then rows[i].count + 1 else rows[i].count
  {
    if rows == [] then []
    else
      var head := if rows[0].candidate == name then rows[0].(count := rows[0].count + 1) else rows[0];
      [head] + Bump(rows[1..], name)
  }

  /**
   * `INSERT INTO voters (aadhaar, name, dob, password_hash, qr_code_data)`:
   * refused by the UNIQUE and CHECK constraints unless the aadhaar is new
   * and well formed.
   */
  function InsertVoter(db: Database, aadhaar: string, name: string, dob: string,
                       passwordHash: string, qrCodeData: string): (r: Database)
    ensures aadhaar in db.voters || !ValidAadhaar(aadhaar) ==> r == db
    ensures aadhaar !in db.voters && ValidAadhaar(aadhaar) ==>
              && r.voters == db.voters[aadhaar := Voter(db.nextId, name, dob, passwordHash, qrCodeData)]
              && |r.voters| == |db.voters| + 1
              && r.nextId == db.nextId + 1
              && r.votes == db.votes && r.tally == db.tally
  {
    if aadhaar in db.voters || !ValidAadhaar(aadhaar) then db
    else db.(voters := db.voters[aadhaar := Voter(db.nextId, name, dob, passwordHash, qrCodeData)],
             nextId := db.nextId + 1)
  }

  /**
   * `INSERT INTO votes (voter_id, candidate)`: refused by the UNIQUE
   * constraint on voter_id and by the FOREIGN KEY to `voters.id`.
   */
  function InsertVote(db: Database, voterId: nat, encryptedVote: string): (r: Database)
    ensures voterId in db.votes || voterId !in VoterIds(db) ==> r == db
    ensures voterId !in db.votes && voterId in VoterIds(db) ==>
              && r.votes == db.votes[voterId := encryptedVote]
              && |r.votes| == |db.votes| + 1
              && r.voters == db.voters && r.tally == db.tally && r.nextId == db.nextId
  {
    if voterId in db.votes || voterId !in VoterIds(db) then db
    else db.(votes := db.votes[voterId := encryptedVote])
  }

  /** `UPDATE candidate_results SET vote_count = vote_count + 1 WHERE candidate_name = %s` on the tables. */
  function UpdateTally(db: Database, party: string): (r: Database)
    ensures r.voters == db.voters && r.votes == db.votes && r.nextId == db.nextId
    ensures r.tally == Bump(db.tally, party)
    ensures Total(r.tally) == Total(db.tally) + Occurrences(db.tally, party)
  {
    BumpTotal(db.tally, party);
    db.(tally := Bump(db.tally, party))
  }

  /**
   * `SELECT id, name, dob FROM voters WHERE aadhaar = %s AND password_hash = %s`;
   * aadhaar is UNIQUE, so at most one row matches.
   */
  function FindVoter(db: Database, aadhaar: string, passwordHash: string): (r: Option<Voter>)
    ensures r.Some? <==> aadhaar in db.voters && db.voters[aadhaar].passwordHash == passwordHash
    ensures r.Some? ==> r.value == db.voters[aadhaar]
  {
    if aadhaar in db.voters && db.voters[aadhaar].passwordHash == passwordHash then Some(db.voters[aadhaar])
    else None
  }

  /**
   * The login lookup: split the payload on ':' into aadhaar and hash, then
   * select the voter row matching both.
   */
  function LookUpCredential(db: Database, qrData: string): (r: Option<Voter>)
    ensures Count(qrData, ':') != 1 ==> r.None?
    ensures r.Some? ==> exists a :: a in db.voters && db.voters[a] == r.value &&
                                    GenerateQrData(a, r.value.passwordHash) == qrData
  {
    match ParseQrData(qrData)
    case None => None
    case Some((aadhaar, passwordHash)) => FindVoter(db, aadhaar, passwordHash)
  }

  /**
   * In consistent tables a payload authenticates exactly when it is the QR
   * payload stored for some voter, and then it finds that voter.
   */
  lemma LookUpIsStoredCredential(db: Database, qrData: string)
    requires Consistent(db)
    ensures LookUpCredential(db, qrData).Some? <==>
              exists a :: a in db.voters && db.voters[a].qrCodeData == qrData
    ensures LookUpCredential(db, qrData).Some? ==> LookUpCredential(db, qrData).value.qrCodeData == qrData
  {
    if exists a :: a in db.voters && db.voters[a].qrCodeData == qrData {
      var a :| a in db.voters && db.voters[a].qrCodeData == qrData;
      CredentialRoundTrip(a, db.voters[a].passwordHash);
    }
  }

  /** The database right after `initialize_database` on an empty schema. */
  function Initial(): (db: Database)
    ensures db.voters == map[] && db.votes == map[] && db.nextId == 1
    ensures |db.tally| == |PoliticalParties|
    ensures forall i :: 0 <= i < |PoliticalParties| ==> db.tally[i] == TallyRow(PoliticalParties[i], 0)
    ensures Total(db.tally) == 0
  {
    SeedTotal(PoliticalParties);
    Database(map[], map[], SeedRows(PoliticalParties), 1)
  }

  /** Each party appears in the tally exactly in the order of `POLITICAL_PARTIES`, with a count that never went negative. */
  ghost predicate TallyShape(rows: seq<TallyRow>)
  {
    && |rows| == |PoliticalParties|
    && forall i :: 0 <= i < |rows| ==> rows[i].candidate == PoliticalParties[i] && rows[i].count >= 0
  }

  /**
   * What the tables always satisfy: the constraints of the schema, every
   * voter's QR payload built from its aadhaar and hash, and a tally whose
   * counts add up to the number of vote rows.
   */
  ghost predicate Consistent(db: Database)
  {
    && WellFormedVoters(db.voters, db.nextId)
    && db.votes.Keys <= VoterIds(db)
    && TallyShape(db.tally)
    && Total(db.tally) == |db.votes|
  }

  /** The constraints on one `voters` row stored under `aadhaar`. */
  predicate WellFormedVoter(aadhaar: string, voter: Voter, nextId: nat)
  {
    && ValidAadhaar(aadhaar)
    && IsHexDigest(voter.passwordHash)
    && voter.qrCodeData == GenerateQrData(aadhaar, voter.passwordHash)
    && 1 <= voter.id < nextId
  }

  /** Every row well formed, ids below the AUTO_INCREMENT counter and pairwise distinct. */
  ghost predicate WellFormedVoters(voters: map<string, Voter>, nextId: nat)
  {
    && nextId >= 1
    && (forall a :: a in voters ==> WellFormedVoter(a, voters[a], nextId))
    && (forall a, b :: a in voters && b in voters && a != b ==> voters[a].id != voters[b].id)
  }

  lemma PartiesDistinct()
    ensures forall i, j :: 0 <= i < j < |PoliticalParties| ==> PoliticalParties[i] != PoliticalParties[j]
  {
  }

  lemma {:induction false} SeedTotal(parties: seq<string>)
    ensures Total(SeedRows(parties)) == 0
  {
    if parties != [] {
      SeedTotal(parties[1..]);
    }
  }

  /** After initialisation: one zero row per party, in list order, and no voters or votes. */
  lemma InitialConsistent()
    ensures Consistent(Initial())
    ensures |Initial().tally| == |PoliticalParties|
    ensures forall i :: 0 <= i < |PoliticalParties| ==> Initial().tally[i] == TallyRow(PoliticalParties[i], 0)
  {
    SeedTotal(PoliticalParties);
  }

  /** Bumping a name raises the total by the number of rows carrying that name. */
  lemma {:induction false} BumpTotal(rows: seq<TallyRow>, name: string)
    ensures Total(Bump(rows, name)) == Total(rows) + Occurrences(rows, name)
  {
    if rows != [] {
      BumpTotal(rows[1..], name);
    }
  }

  /** In a tally with distinct candidate names, each party occurs exactly once. */
  lemma {:induction false} OccursOnce(rows: seq<TallyRow>, k: nat)
    requires k < |rows|
    requires forall i, j :: 0 <= i < j < |rows| ==> rows[i].candidate != rows[j].candidate
    ensures Occurrences(rows, rows[k].candidate) == 1
  {
    if k == 0 {
      NotOccurring(rows[1..], rows[0].candidate);
    } else {
      OccursOnce(rows[1..], k - 1);
    }
  }

  lemma {:induction false} NotOccurring(rows: seq<TallyRow>, name: string)
    requires forall i :: 0 <= i < |rows| ==> rows[i].candidate != name
    ensures Occurrences(rows, name) == 0
  {
    if rows != [] {
      NotOccurring(rows[1..], name);
    }
  }

  /** A party from the list has exactly one tally row, so a vote for it adds exactly one to the total. */
  lemma BumpPartyTotal(rows: seq<TallyRow>, party: string)
    requires TallyShape(rows)
    requires party in PoliticalParties
    ensures Total(Bump(rows, party)) == Total(rows) + 1
    ensures TallyShape(Bump(rows, party))
  {
    PartiesDistinct();
    var k :| 0 <= k < |PoliticalParties| && PoliticalParties[k] == party;
    assert rows[k].candidate == party;
    OccursOnce(rows, k);
    BumpTotal(rows, party);
  }

  /** Inserting a voter never loses an id that a vote row or a session may refer to. */
  lemma InsertVoterKeepsIds(db: Database, aadhaar: string, name: string, dob: string,
                            passwordHash: string, qrCodeData: string)
    ensures VoterIds(db) <= VoterIds(InsertVoter(db, aadhaar, name, dob, passwordHash, qrCodeData))
  {
    var db' := InsertVoter(db, aadhaar, name, dob, passwordHash, qrCodeData);
    forall v | v in VoterIds(db)
      ensures v in VoterIds(db')
    {
      var a :| a in db.voters && db.voters[a].id == v;
      assert db'.voters[a].id == v;
    }
  }

  /** A registration that passed the guards keeps the tables consistent. */
  lemma InsertVoterConsistent(db: Database, aadhaar: string, name: string, dob: string, passwordHash: Digest)
    requires Consistent(db)
    ensures Consistent(InsertVoter(db, aadhaar, name, dob, passwordHash, GenerateQrData(aadhaar, passwordHash)))
  {
    var db' := InsertVoter(db, aadhaar, name, dob, passwordHash, GenerateQrData(aadhaar, passwordHash));
    if db' != db {
      assert db'.voters[aadhaar].passwordHash == passwordHash;
      forall a | a in db'.voters
        ensures ValidAadhaar(a) && IsHexDigest(db'.voters[a].passwordHash)
        ensures db'.voters[a].qrCodeData == GenerateQrData(a, db'.voters[a].passwordHash)
        ensures 1 <= db'.voters[a].id < db'.nextId
      {
      }
      InsertVoterKeepsIds(db, aadhaar, name, dob, passwordHash, GenerateQrData(aadhaar, passwordHash));
    }
  }

  /** A vote by a registered voter without a vote row, for a listed party, keeps the tables consistent. */
  lemma CastConsistent(db: Database, voterId: nat, encryptedVote: string, party: string)
    requires Consistent(db)
    requires voterId in VoterIds(db) && voterId !in db.votes
    requires party in PoliticalParties
    ensures Consistent(UpdateTally(InsertVote(db, voterId, encryptedVote), party))
  {
    BumpPartyTotal(db.tally, party);
  }
}
