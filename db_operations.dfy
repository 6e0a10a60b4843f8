/**
 * `VotingDBOperations`: the helper layer between the handlers and the
 * database manager. The class keeps no state of its own; every operation
 * reads or changes the shared database, so each one is modelled as a
 * function from the database before the call to its result (and, for the
 * writing operations, the database after the call).
 *
 * The database manager offers none of the methods this layer calls
 * (`register_voter`, `get_voter_by_aadhaar`, `has_voted`, `cast_vote`,
 * `get_election_results`); the `Store...` functions below are the abstract
 * behaviour those calls need, stated on the tables themselves.
 */
module DbOperations {
  import opened Wrappers
  import opened Text
  import opened Credentials
  import opened Store

  // ---------------------------------------------------------------------
  // Abstract store behaviour
  // ---------------------------------------------------------------------

  /** `get_voter_by_aadhaar`: the stored voter row, if any. */
  function StoreGetVoterByAadhaar(db: Database, aadhaar: string): (r: Option<Voter>)
    ensures r.Some? <==> aadhaar in db.voters
    ensures r.Some? ==> r.value == db.voters[aadhaar]
  {
    if aadhaar in db.voters then Some(db.voters[aadhaar]) else None
  }

  /**
   * `register_voter` on the store: one `INSERT INTO voters`, reporting
   * whether a row went in (UNIQUE and CHECK refusals report failure).
   */
  function StoreRegisterVoter(db: Database, aadhaar: string, name: string, dob: string,
                              passwordHash: string, qrCodeData: string): (r: (Database, bool))
    ensures r.1 <==> aadhaar !in db.voters && ValidAadhaar(aadhaar)
    ensures r.1 ==> r.0 == db.(voters := db.voters[aadhaar := Voter(db.nextId, name, dob, passwordHash, qrCodeData)],
                               nextId := db.nextId + 1)
    ensures !r.1 ==> r.0 == db
  {
    var db' := InsertVoter(db, aadhaar, name, dob, passwordHash, qrCodeData);
    (db', aadhaar !in db.voters && ValidAadhaar(aadhaar))
  }

  /**
   * `cast_vote` on the store: the `votes` insert followed by the tally
   * increment, both skipped when the insert is refused (the UNIQUE key on
   * `voter_id` and the foreign key to `voters.id`). The candidate is not
   * checked against the party list.
   */
  function StoreCastVote(db: Database, voterId: nat, candidate: string): (r: (Database, bool))
    ensures r.1 <==> voterId in VoterIds(db) && !HasVoted(db, voterId)
    ensures r.1 ==> r.0 == db.(votes := db.votes[voterId := candidate], tally := Bump(db.tally, candidate))
    ensures !r.1 ==> r.0 == db
  {
    if voterId in VoterIds(db) && !HasVoted(db, voterId) then
      (UpdateTally(InsertVote(db, voterId, candidate), candidate), true)
    else
      (db, false)
  }

  /** `get_election_results`: candidate name to vote count, one entry per tally row. */
  function StoreElectionResults(rows: seq<TallyRow>): (r: map<string, int>)
    ensures forall i :: 0 <= i < |rows| ==> rows[i].candidate in r
    ensures forall name :: name in r ==> exists i :: 0 <= i < |rows| && rows[i].candidate == name
  {
    if rows == [] then map[]
    else StoreElectionResults(rows[..|rows| - 1])[rows[|rows| - 1].candidate := rows[|rows| - 1].count]
  }

  // ---------------------------------------------------------------------
  // VotingDBOperations
  // ---------------------------------------------------------------------

  /**
   * `register_voter`: hash the password, build the QR payload from the
   * aadhaar and the hash, and hand both to the store.
   */
  function RegisterVoter(db: Database, sha256: string -> Digest, aadhaar: string, name: string,
                         dob: string, password: string): (r: (Database, bool))
    ensures r.1 <==> aadhaar !in db.voters && ValidAadhaar(aadhaar)
    ensures r.1 ==> r.0.voters == db.voters[aadhaar := Voter(db.nextId, name, dob, sha256(password),
                                                              GenerateQrData(aadhaar, sha256(password)))]
    ensures r.1 ==> r.0.votes == db.votes && r.0.tally == db.tally && r.0.nextId == db.nextId + 1
    ensures !r.1 ==> r.0 == db
  {
    var passwordHash := sha256(password);
    StoreRegisterVoter(db, aadhaar, name, dob, passwordHash, GenerateQrData(aadhaar, passwordHash))
  }

  /**
   * `authenticate_voter`: split the payload on `:`; anything but exactly
   * two parts is the `ValueError` of the unpacking and yields None. Then
   * fetch the voter by aadhaar and accept it only when its stored hash
   * equals the payload's hash part.
   */
  function AuthenticateVoter(db: Database, qrData: string): (r: Option<Voter>)
    ensures Count(qrData, ':') != 1 ==> r.None?
    ensures r.Some? ==> exists aadhaar :: aadhaar in db.voters && db.voters[aadhaar] == r.value &&
                                          GenerateQrData(aadhaar, r.value.passwordHash) == qrData
  {
    match ParseQrData(qrData)
    case None => None
    case Some((aadhaar, passwordHash)) =>
      var voter := StoreGetVoterByAadhaar(db, aadhaar);
      if voter.Some? && voter.value.passwordHash == passwordHash then voter else None
  }

  /**
   * `cast_vote`: refuse without touching the store when the voter has a
   * vote already, otherwise pass the vote on.
   */
  function CastVote(db: Database, voterId: nat, candidate: string): (r: (Database, bool))
    ensures HasVoted(db, voterId) ==> r == (db, false)
    ensures r.1 <==> voterId in VoterIds(db) && !HasVoted(db, voterId)
    ensures r.1 ==> r.0.votes == db.votes[voterId := candidate] && |r.0.votes| == |db.votes| + 1
    ensures r.1 ==> r.0.tally == Bump(db.tally, candidate) && r.0.voters == db.voters && r.0.nextId == db.nextId
    ensures !r.1 ==> r.0 == db
  {
    if HasVoted(db, voterId) then (db, false)
    else StoreCastVote(db, voterId, candidate)
  }

  /** `get_results`: what the store returned, or an empty mapping when it returned nothing. */
  function GetResults(fetched: Option<map<string, int>>): (r: map<string, int>)
    ensures fetched.None? ==> r == map[]
    ensures fetched.Some? ==> r == fetched.value
  {
    if fetched.None? || fetched.value == map[] then map[] else fetched.value
  }

  // ---------------------------------------------------------------------
  // Properties
  // ---------------------------------------------------------------------

  /**
   * The payload `register_voter` stores is accepted by
   * `authenticate_voter`, which returns the new voter.
   */
  lemma RegisterThenAuthenticate(db: Database, sha256: string -> Digest, aadhaar: string, name: string,
                                 dob: string, password: string)
    requires aadhaar !in db.voters && ValidAadhaar(aadhaar)
    ensures AuthenticateVoter(RegisterVoter(db, sha256, aadhaar, name, dob, password).0,
                              GenerateQrData(aadhaar, sha256(password)))
            == Some(Voter(db.nextId, name, dob, sha256(password), GenerateQrData(aadhaar, sha256(password))))
  {
    CredentialRoundTrip(aadhaar, sha256(password));
  }

  /**
   * Fetching by aadhaar and comparing the hash (`authenticate_voter`) finds
   * the same voter as the login handler's query on both columns.
   */
  lemma AuthenticateMatchesLogin(db: Database, qrData: string)
    ensures AuthenticateVoter(db, qrData) == LookUpCredential(db, qrData)
  {
  }

  /**
   * On consistent tables, authentication succeeds exactly for a payload
   * some voter has stored as its QR data, and returns that voter.
   */
  lemma AuthenticateIffStored(db: Database, qrData: string)
    requires Consistent(db)
    ensures AuthenticateVoter(db, qrData).Some? <==>
              exists aadhaar :: aadhaar in db.voters && db.voters[aadhaar].qrCodeData == qrData
    ensures AuthenticateVoter(db, qrData).Some? ==> AuthenticateVoter(db, qrData).value.qrCodeData == qrData
  {
    AuthenticateMatchesLogin(db, qrData);
    LookUpIsStoredCredential(db, qrData);
  }

  /** A second `cast_vote` by the same voter is refused and changes nothing. */
  lemma CastVoteOnce(db: Database, voterId: nat, first: string, second: string)
    requires CastVote(db, voterId, first).1
    ensures CastVote(CastVote(db, voterId, first).0, voterId, second) == (CastVote(db, voterId, first).0, false)
  {
  }

  /** An accepted vote for a listed party keeps the tables consistent. */
  lemma CastVoteConsistent(db: Database, voterId: nat, party: string)
    requires Consistent(db)
    requires party in PoliticalParties
    ensures Consistent(CastVote(db, voterId, party).0)
  {
    if !HasVoted(db, voterId) && voterId in VoterIds(db) {
      CastConsistent(db, voterId, party, party);
    }
  }

  /**
   * `cast_vote` does not check the candidate against the party list: an
   * accepted vote for any other name is stored, yet no tally row counts it.
   */
  lemma CastVoteUnlistedUncounted(db: Database, voterId: nat, candidate: string)
    requires Consistent(db)
    requires candidate !in PoliticalParties
    requires CastVote(db, voterId, candidate).1
    ensures Total(CastVote(db, voterId, candidate).0.tally) + 1 == |CastVote(db, voterId, candidate).0.votes|
    ensures !Consistent(CastVote(db, voterId, candidate).0)
  {
    NotOccurring(db.tally, candidate);
    BumpTotal(db.tally, candidate);
  }

  /** A registration through this layer keeps the tables consistent. */
  lemma RegisterVoterConsistent(db: Database, sha256: string -> Digest, aadhaar: string, name: string,
                                dob: string, password: string)
    requires Consistent(db)
    ensures Consistent(RegisterVoter(db, sha256, aadhaar, name, dob, password).0)
  {
    InsertVoterConsistent(db, aadhaar, name, dob, sha256(password));
  }

  /**
   * On consistent tables the results mapping has one entry per political
   * party, holding that party's tally count.
   */
  lemma ResultsPerParty(db: Database)
    requires Consistent(db)
    ensures forall i :: 0 <= i < |PoliticalParties| ==>
              PoliticalParties[i] in GetResults(Some(StoreElectionResults(db.tally))) &&
              GetResults(Some(StoreElectionResults(db.tally)))[PoliticalParties[i]] == db.tally[i].count
  {
    PartiesDistinct();
    ResultsOfDistinct(db.tally);
  }

  /** With distinct candidate names, each row's name maps to that row's count. */
  lemma {:induction false} ResultsOfDistinct(rows: seq<TallyRow>)
    requires forall i, j :: 0 <= i < j < |rows| ==> rows[i].candidate != rows[j].candidate
    ensures forall i :: 0 <= i < |rows| ==> StoreElectionResults(rows)[rows[i].candidate] == rows[i].count
  {
    if rows != [] {
      var init := rows[..|rows| - 1];
      ResultsOfDistinct(init);
      forall i | 0 <= i < |rows|
        ensures StoreElectionResults(rows)[rows[i].candidate] == rows[i].count
      {
        if i < |rows| - 1 {
          assert init[i] == rows[i];
        }
      }
    }
  }
}
