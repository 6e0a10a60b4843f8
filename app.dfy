/**
 * The request handlers of the Flask application, over the tables of
 * `Store`: registration, QR login, vote casting and the JSON results.
 * One `VotingApp` object is one running application with one client
 * session; the session is reduced to the voter id that login binds.
 */
module App {
  import opened Wrappers
  import opened Text
  import opened Credentials
  import opened Store

  datatype RegisterOutcome =
    | AlreadyRegistered                          // redirect to done?message=already_registered
    | InvalidAadhaar                             // flash 'Aadhaar must be 12 digits'
    | Registered(voterId: nat, qrData: string)   // show the QR code of this payload

  datatype LoginOutcome =
    | NoQrData                                   // flash 'Invalid QR code'
    | MalformedPayload                           // the split raised: 'Login failed'
    | AuthFailed                                 // flash 'Authentication failed'
    | VotedBefore                                // redirect to done?message=already_voted
    | LoggedIn(voterId: nat, name: string, dob: string)

  datatype VoteOutcome =
    | NotLoggedIn                                // redirect to login
    | AlreadyVoted                               // redirect to done?message=already_voted
    | InvalidParty                               // flash 'Please select a valid political party'
    | Voted                                      // redirect to thank-you

  /** The JSON body of `/api/results`. */
  datatype ResultsReport = ResultsReport(results: seq<TallyRow>, totalVotes: int)

  /** Voter ids whose (decrypted) ballot names `party`. */
  ghost function VotesFor(ballots: map<nat, string>, party: string): set<nat>
  {
    set v | v in ballots && ballots[v] == party
  }

  /** Recording one more ballot adds one vote for its party and none for the others. */
  lemma VotesForAdd(ballots: map<nat, string>, voterId: nat, party: string, name: string)
    requires voterId !in ballots
    ensures |VotesFor(ballots[voterId := party], name)| ==
              |VotesFor(ballots, name)| + (if name == party then 1 else 0)
  {
    if name == party {
      assert VotesFor(ballots[voterId := party], name) == VotesFor(ballots, name) + {voterId};
    } else {
      assert VotesFor(ballots[voterId := party], name) == VotesFor(ballots, name);
    }
  }

  /**
   * Each candidate row counts exactly the ballots for that candidate: the
   * decrypted `votes` log agrees with `candidate_results`.
   */
  ghost predicate Reconciled(tally: seq<TallyRow>, ballots: map<nat, string>)
  {
    forall i :: 0 <= i < |tally| ==> tally[i].count == |VotesFor(ballots, tally[i].candidate)|
  }

  /** No candidate has a ballot yet and every count is zero. */
  lemma ReconciledInitially(tally: seq<TallyRow>)
    requires forall i :: 0 <= i < |tally| ==> tally[i].count == 0
    ensures Reconciled(tally, map[])
  {
    forall i | 0 <= i < |tally|
      ensures VotesFor(map[], tally[i].candidate) == {}
    {
    }
  }

  /** Recording a ballot for `party` and bumping `party`'s row keep the log and the tally in agreement. */
  lemma ReconciledAfterVote(tally: seq<TallyRow>, ballots: map<nat, string>, voterId: nat, party: string)
    requires Reconciled(tally, ballots)
    requires voterId !in ballots
    ensures Reconciled(Bump(tally, party), ballots[voterId := party])
  {
    var tally' := Bump(tally, party);
    forall i | 0 <= i < |tally'|
      ensures tally'[i].count == |VotesFor(ballots[voterId := party], tally'[i].candidate)|
    {
      VotesForAdd(ballots, voterId, party, tally[i].candidate);
    }
  }

  /**
   * What holds between requests: consistent tables, a session bound (if at
   * all) to a stored voter, and one decrypted ballot per vote row agreeing
   * with the tally.
   */
  ghost predicate Invariant(db: Database, session: Option<nat>, ballots: map<nat, string>)
  {
    && Consistent(db)
    && (session.Some? ==> session.value in VoterIds(db))
    && ballots.Keys == db.votes.Keys
    && Reconciled(db.tally, ballots)
  }

  lemma InvariantInitially()
    ensures Invariant(Initial(), None, map[])
  {
    InitialConsistent();
    ReconciledInitially(Initial().tally);
  }

  /** Binding the session to a stored voter keeps the invariant. */
  lemma InvariantAfterLogin(db: Database, session: Option<nat>, ballots: map<nat, string>, voterId: nat)
    requires Invariant(db, session, ballots)
    requires voterId in VoterIds(db)
    ensures Invariant(db, Some(voterId), ballots)
  {
  }

  /** A registration that passed both guards keeps the invariant. */
  lemma InvariantAfterRegister(db: Database, session: Option<nat>, ballots: map<nat, string>,
                               aadhaar: string, name: string, dob: string, passwordHash: Digest)
    requires Invariant(db, session, ballots)
    ensures Invariant(InsertVoter(db, aadhaar, name, dob, passwordHash, GenerateQrData(aadhaar, passwordHash)), session, ballots)
  {
    InsertVoterConsistent(db, aadhaar, name, dob, passwordHash);
    InsertVoterKeepsIds(db, aadhaar, name, dob, passwordHash, GenerateQrData(aadhaar, passwordHash));
  }

  /** A vote by the session voter, who has no vote row yet, for a listed party keeps the invariant. */
  lemma InvariantAfterVote(db: Database, session: Option<nat>, ballots: map<nat, string>,
                           voterId: nat, encryptedVote: string, party: string)
    requires Invariant(db, session, ballots)
    requires session == Some(voterId) && voterId !in db.votes
    requires party in PoliticalParties
    ensures Invariant(UpdateTally(InsertVote(db, voterId, encryptedVote), party), session, ballots[voterId := party])
  {
    CastConsistent(db, voterId, encryptedVote, party);
    ReconciledAfterVote(db.tally, ballots, voterId, party);
  }

  ghost predicate SortedByCountDesc(rows: seq<TallyRow>)
  {
    forall i, j :: 0 <= i < j < |rows| ==> rows[i].count >= rows[j].count
  }

  /** A row no smaller than the head of a sorted list can go in front of it. */
  lemma SortedCons(row: TallyRow, sorted: seq<TallyRow>)
    requires SortedByCountDesc(sorted)
    requires sorted == [] || row.count >= sorted[0].count
    ensures SortedByCountDesc([row] + sorted)
  {
    var r := [row] + sorted;
    forall i, j | 0 <= i < j < |r|
      ensures r[i].count >= r[j].count
    {
      if i > 0 {
        assert r[i] == sorted[i - 1] && r[j] == sorted[j - 1];
      } else {
        assert r[j] == sorted[j - 1];
      }
    }
  }

  /** Places `row` in a list sorted by descending count. */
  function InsertByCount(row: TallyRow, sorted: seq<TallyRow>): (r: seq<TallyRow>)
    requires SortedByCountDesc(sorted)
    ensures multiset(r) == multiset(sorted) + multiset{row}
    ensures SortedByCountDesc(r)
    ensures r[0] == row || (sorted != [] && r[0] == sorted[0])
  {
    if sorted == [] || row.count >= sorted[0].count then
      SortedCons(row, sorted);
      [row] + sorted
    else
      var rest := InsertByCount(row, sorted[1..]);
      assert sorted == [sorted[0]] + sorted[1..];
      SortedCons(sorted[0], rest);
      [sorted[0]] + rest
  }

  /** `ORDER BY vote_count DESC`. */
  function SortByCountDesc(rows: seq<TallyRow>): (r: seq<TallyRow>)
    ensures multiset(r) == multiset(rows)
    ensures SortedByCountDesc(r)
  {
    if rows == [] then []
    else
      assert rows == [rows[0]] + rows[1..];
      InsertByCount(rows[0], SortByCountDesc(rows[1..]))
  }

  /**
   * `api_results`: the candidate rows ordered by count, highest first, and
   * `total_votes` as the sum of the counts of those rows.
   */
  function Report(tally: seq<TallyRow>): (r: ResultsReport)
    ensures multiset(r.results) == multiset(tally)
    ensures SortedByCountDesc(r.results)
    ensures r.totalVotes == Total(tally)
  {
    var rows := SortByCountDesc(tally);
    TotalPermutation(rows, tally);
    ResultsReport(rows, Total(rows))
  }

  class VotingApp {
    var voters: map<string, Voter>
    var votes: map<nat, string>
    var tally: seq<TallyRow>
    var nextId: nat
    /** `session['voter_id']`. */
    var sessionVoter: Option<nat>
    /** The party each stored Fernet token decrypts to. */
    ghost var ballots: map<nat, string>
    /** `hashlib.sha256(password.encode()).hexdigest()`, left uninterpreted. */
    const sha256: string -> Digest

    function Db(): Database
      reads this
    {
      Database(voters, votes, tally, nextId)
    }

    ghost predicate Valid()
      reads this
    {
      Invariant(Db(), sessionVoter, ballots)
    }

    /**
     * Start-up on an empty schema: `initialize_database` creates the three
     * tables and inserts one `candidate_results` row per party.
     */
    constructor (sha256: string -> Digest)
      ensures Valid()
      ensures this.sha256 == sha256
      ensures voters == map[] && votes == map[] && nextId == 1 && sessionVoter == None
      ensures |tally| == |PoliticalParties|
      ensures forall i :: 0 <= i < |tally| ==> tally[i] == TallyRow(PoliticalParties[i], 0)
    {
      var rows: seq<TallyRow> := [];
      for i := 0 to |PoliticalParties|
        invariant |rows| == i
        invariant forall j :: 0 <= j < i ==> rows[j] == TallyRow(PoliticalParties[j], 0)
      {
        rows := rows + [TallyRow(PoliticalParties[i], 0)];
      }
      this.sha256 := sha256;
      voters := map[];
      votes := map[];
      tally := rows;
      nextId := 1;
      sessionVoter := None;
      ballots := map[];
      new;
      assert tally == Initial().tally;
      InvariantInitially();
    }

    /**
     * POST /register. The duplicate check runs before the format check;
     * a new voter gets the next id and the payload aadhaar ':' hash.
     */
    method Register(aadhaar: string, name: string, dob: string, password: string) returns (outcome: RegisterOutcome)
      requires Valid()
      modifies this`voters, this`nextId
      ensures outcome.AlreadyRegistered? <==> aadhaar in old(voters)
      ensures outcome.InvalidAadhaar? <==> aadhaar !in old(voters) && !ValidAadhaar(aadhaar)
      ensures outcome.Registered? ==>
                && outcome.voterId == old(nextId)
                && outcome.qrData == GenerateQrData(aadhaar, sha256(password))
                && voters == old(voters)[aadhaar := Voter(outcome.voterId, name, dob, sha256(password), outcome.qrData)]
                && |voters| == |old(voters)| + 1
      ensures !outcome.Registered? ==> voters == old(voters) && nextId == old(nextId)
      ensures Db() == InsertVoter(old(Db()), aadhaar, name, dob, sha256(password), GenerateQrData(aadhaar, sha256(password)))
      ensures Valid()
    {
      if IsRegistered(Db(), aadhaar) {
        return AlreadyRegistered;
      }
      if !ValidAadhaar(aadhaar) {
        return InvalidAadhaar;
      }
      var passwordHash := sha256(password);
      var qrData := GenerateQrData(aadhaar, passwordHash);
      ghost var before := Db();
      ghost var after := InsertVoter(before, aadhaar, name, dob, passwordHash, qrData);
      voters := voters[aadhaar := Voter(nextId, name, dob, passwordHash, qrData)];
      nextId := nextId + 1;
      assert Db() == after;
      InvariantAfterRegister(before, sessionVoter, ballots, aadhaar, name, dob, passwordHash);
      outcome := Registered(voters[aadhaar].id, qrData);
    }

    /**
     * POST /login with the payload the QR decoder read (`None` when no code
     * was found). A matching voter who already has a vote row is turned
     * away; otherwise the session is bound to that voter.
     */
    method Login(qrData: Option<string>) returns (outcome: LoginOutcome)
      requires Valid()
      modifies this`sessionVoter
      ensures outcome.NoQrData? <==> qrData.None? || qrData.value == []
      ensures outcome.MalformedPayload? <==> qrData.Some? && qrData.value != [] && Count(qrData.value, ':') != 1
      ensures outcome.AuthFailed? <==>
                qrData.Some? && Count(qrData.value, ':') == 1 && LookUpCredential(Db(), qrData.value).None?
      ensures outcome.VotedBefore? <==>
                qrData.Some? && LookUpCredential(Db(), qrData.value).Some? && LookUpCredential(Db(), qrData.value).value.id in votes
      ensures outcome.LoggedIn? <==>
                qrData.Some? && LookUpCredential(Db(), qrData.value).Some? && LookUpCredential(Db(), qrData.value).value.id !in votes
      ensures outcome.LoggedIn? ==>
                var v := LookUpCredential(Db(), qrData.value).value;
                outcome == LoggedIn(v.id, v.name, v.dob) && sessionVoter == Some(v.id) && v.qrCodeData == qrData.value
      ensures !outcome.LoggedIn? ==> sessionVoter == old(sessionVoter)
      ensures Valid()
    {
      if qrData.None? || qrData.value == [] {
        return NoQrData;
      }
      var parsed := ParseQrData(qrData.value);
      if parsed.None? {
        return MalformedPayload;
      }
      var (aadhaar, passwordHash) := parsed.value;
      var found := FindVoter(Db(), aadhaar, passwordHash);
      if found.None? {
        return AuthFailed;
      }
      var voter := found.value;
      if HasVoted(Db(), voter.id) {
        return VotedBefore;
      }
      LookUpIsStoredCredential(Db(), qrData.value);
      assert voter.id in VoterIds(Db());
      sessionVoter := Some(voter.id);
      InvariantAfterLogin(Db(), old(sessionVoter), ballots, voter.id);
      outcome := LoggedIn(voter.id, voter.name, voter.dob);
    }

    /**
     * POST /vote with the form field `candidate` and the Fernet token of
     * the chosen party. Already-voted is checked before the party and
     * again after START TRANSACTION; a vote inserts one `votes` row and
     * increments the chosen party's count.
     */
    method Vote(candidate: Option<string>, encryptedVote: string) returns (outcome: VoteOutcome)
      requires Valid()
      modifies this`votes, this`tally, this`ballots
      ensures outcome.NotLoggedIn? <==> sessionVoter.None?
      ensures outcome.AlreadyVoted? <==> sessionVoter.Some? && sessionVoter.value in old(votes)
      ensures outcome.InvalidParty? <==>
                sessionVoter.Some? && sessionVoter.value !in old(votes) &&
                (candidate.None? || candidate.value !in PoliticalParties)
      ensures outcome.Voted? ==>
                && votes == old(votes)[sessionVoter.value := encryptedVote]
                && |votes| == |old(votes)| + 1
                && ballots == old(ballots)[sessionVoter.value := candidate.value]
                && tally == Bump(old(tally), candidate.value)
      ensures !outcome.Voted? ==> votes == old(votes) && tally == old(tally) && ballots == old(ballots)
      ensures Valid()
    {
      if sessionVoter.None? {
        return NotLoggedIn;
      }
      var voterId := sessionVoter.value;
      if HasVoted(Db(), voterId) {
        return AlreadyVoted;
      }
      if candidate.None? || candidate.value == [] || candidate.value !in PoliticalParties {
        return InvalidParty;
      }
      var party := candidate.value;
      // START TRANSACTION, then the already-voted check once more.
      if HasVoted(Db(), voterId) {
        return AlreadyVoted;
      }
      RecordVote(voterId, party, encryptedVote);
      outcome := Voted;
    }

    /**
     * The statements between START TRANSACTION and COMMIT: insert the
     * `votes` row, then increment the party's `candidate_results` row.
     */
    method RecordVote(voterId: nat, party: string, encryptedVote: string)
      requires Valid()
      requires sessionVoter == Some(voterId) && voterId !in votes
      requires party in PoliticalParties
      modifies this`votes, this`tally, this`ballots
      ensures votes == old(votes)[voterId := encryptedVote]
      ensures tally == Bump(old(tally), party)
      ensures ballots == old(ballots)[voterId := party]
      ensures Valid()
    {
      ghost var before := Db();
      ghost var after := UpdateTally(InsertVote(before, voterId, encryptedVote), party);
      votes := votes[voterId := encryptedVote];
      tally := Bump(tally, party);
      ballots := ballots[voterId := party];
      assert Db() == after;
      InvariantAfterVote(before, sessionVoter, old(ballots), voterId, encryptedVote, party);
    }

    /** GET /api/results. */
    function ApiResults(): (r: ResultsReport)
      reads this
      requires Valid()
      ensures multiset(r.results) == multiset(tally)
      ensures SortedByCountDesc(r.results)
      ensures r.totalVotes == |votes|
    {
      Report(tally)
    }
  }
}
