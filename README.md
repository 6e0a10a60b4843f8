# Voting system: a verified model of the voter lifecycle

This project models the core of a small Flask/MySQL voting application. Voters register with a 12-digit aadhaar number and a password. The application prints a QR code that holds the payload `aadhaar:sha256(password)`. A voter logs in by uploading that QR code and then casts one vote for a party from a fixed list. The JSON results endpoint reports the tally.

The model is split by the structure of the program:

- `text.dfy` (`Text`): Python's `str.split` on one separator character, with `Join` as its inverse.
- `credentials.dfy` (`Credentials`): the aadhaar format, SHA-256 digests as 64 lower-case hex digits, the QR payload builder (`generate_qr_data`) and the `split(':')`-and-unpack parser.
- `store.dfy` (`Store`): the three tables (`voters`, `votes`, `candidate_results`) as a `Database` value. It also holds the SQL statements the handlers run, as functions, and the consistency predicate the tables keep.
- `app.dfy` (`App`): the application as a class `VotingApp` whose fields are the tables and the session voter. Its constructor is `initialize_database`. Its methods are the `register`, `login` and `vote` handlers, and `api_results` is a function that reads the fields. Each method states its new state against the `Store` functions and keeps the invariant `Valid()`.
- `db_operations.dfy` (`DbOperations`): the stateless `VotingDBOperations` helper layer. It also specifies the abstract store operations that layer calls. The database manager defines none of them.

SHA-256 is a parameter `sha256: string -> Digest` that the model never looks inside. Fernet encryption appears only through its output: the vote handler receives the token as a parameter. A ghost map `ballots` records which party each stored token stands for. The session is `Option<nat>`, the voter id bound by login. The QR decoder is taken to hand back the payload string unchanged, and `None` models "no code found".

## Model

| member | source | states |
|---|---|---|
| Text.Split | db_operations.py:35 | `split(':')` gives one more part than there are separators, no part contains the separator, and joining the parts with it gives back the input |
| Text.SplitJoin | db_operations.py:35 | splitting the join of separator-free parts returns those parts |
| Text.CountPositive | db_operations.py:35 | a character occurs a positive number of times exactly when it is in the string |
| Credentials.ValidAadhaar | app.py:154 | the register handler's format guard (and the two CHECK constraints at app.py:98-99): a valid aadhaar has 12 characters and no colon |
| Credentials.GenerateQrData | db_operations.py:10-12 | the payload is aadhaar, ':' and hash, so its length and its colon count are the parts' plus one |
| Credentials.ParseQrData | db_operations.py:35 | unpacking succeeds exactly when the payload holds one colon; then both parts are colon-free and rebuild the payload |
| Credentials.QrRoundTrip | db_operations.py:10-12 | building a payload from colon-free parts and parsing it returns exactly those parts |
| Credentials.QrColonInPart | db_operations.py:35 | a colon in the aadhaar or in the hash makes the generated payload fail to unpack |
| Credentials.CredentialRoundTrip | app.py:154-159 | every payload the register handler issues (12 digits, hex digest) parses back to its aadhaar and hash |
| Store.PartiesDistinct | app.py:33-36 | the seven names of `POLITICAL_PARTIES` are pairwise distinct, so the seed fits the UNIQUE `candidate_name` and each party has exactly one tally row |
| Store.HasVoted | app.py:65-72 | on consistent tables a voter with a vote row is a registered voter |
| Store.IsRegistered | app.py:75-82 | on consistent tables a registered aadhaar is 12 digits |
| Store.Total | app.py:357 | the sum of counts is non-negative when every count is |
| Store.Initial | app.py:115-129 | the seeded tables have no voters and no votes, next id 1, one zero row per party in list order, and a zero sum of counts |
| Store.InsertVoter | app.py:162-166 | a duplicate or malformed aadhaar leaves the tables unchanged (UNIQUE and CHECK); otherwise exactly one voter row is added under the next id, the id counter rises by 1, and votes and tally are kept |
| Store.InsertVote | app.py:295-298 | a voter with a vote row or an unknown voter id leaves the tables unchanged (UNIQUE and foreign key); otherwise exactly one vote row is added and everything else is kept |
| Store.UpdateTally | app.py:300-303 | only the tally changes, to the rows with the party's count raised, and the sum of counts rises by the number of rows carrying that name |
| Store.SeedRows | app.py:124-129 | the seed inserts one row per party, in list order, each with count 0 |
| Store.Bump | app.py:300-303 | the UPDATE keeps every row's name and raises by 1 exactly the rows named after the chosen party |
| Store.FindVoter | app.py:238-242 | the login query finds a voter exactly when a row has that aadhaar and that hash |
| Store.InitialConsistent | app.py:115-129 | the freshly seeded tables are consistent: one zero row per party in `POLITICAL_PARTIES`, no voters, no votes |
| Store.BumpTotal | app.py:300-303 | the UPDATE raises the sum of counts by the number of rows carrying the name |
| Store.BumpPartyTotal | app.py:300-303 | for a listed party the UPDATE raises the sum of counts by exactly 1 and keeps the tally's shape |
| Store.TotalPermutation | app.py:357 | the sum of counts does not depend on the order of the rows |
| Store.InsertVoterKeepsIds | app.py:162-166 | inserting a voter removes no voter id |
| Store.InsertVoterConsistent | app.py:158-166 | inserting a voter with payload aadhaar ':' hash keeps the tables consistent |
| Store.CastConsistent | app.py:295-303 | a registered voter without a vote row voting for a listed party keeps the tables consistent, so the sum of counts still equals the number of vote rows |
| Store.LookUpCredential | app.py:237-242 | a payload with zero or several colons finds nobody; a voter found is stored under an aadhaar whose payload with that voter's hash is the input |
| Store.LookUpIsStoredCredential | app.py:237-244 | on consistent tables a payload finds a voter exactly when some voter stores it as its QR data, and the voter found is that one |
| App.VotesForAdd | app.py:295-298 | recording one more ballot adds its voter to the chosen party's voters and to no other party's |
| App.ReconciledAfterVote | app.py:295-303 | after a vote each party's count still equals the number of ballots for that party |
| App.InvariantInitially | app.py:115-129 | the seeded tables with no session and no ballots satisfy the application invariant |
| App.InvariantAfterLogin | app.py:249 | binding the session to a stored voter keeps the application invariant |
| App.InvariantAfterRegister | app.py:151-166 | a registration keeps the application invariant |
| App.InvariantAfterVote | app.py:288-303 | a vote by the session voter keeps the application invariant, so each voter has at most one vote row and counts match ballots |
| App.SortedCons | app.py:353 | a row whose count is at least the head's, put in front of a list sorted by descending count, keeps it sorted |
| App.InsertByCount | app.py:353 | inserting a row into a list sorted by descending count keeps it sorted and adds exactly that row |
| App.SortByCountDesc | app.py:353 | `ORDER BY vote_count DESC` returns a permutation of the rows sorted by descending count |
| App.Report | app.py:352-357 | the report's rows are the tally rows sorted by descending count, and `total_votes` is the sum of all counts |
| App.VotingApp.constructor | app.py:85-129 | start-up creates empty voters and votes, sets no session, and seeds one zero row per party in list order |
| App.VotingApp.Register | app.py:143-178 | the duplicate check comes first and the 12-digit check second, and a refused request changes nothing; success adds exactly one voter with the next id and payload aadhaar ':' sha256(password) |
| App.VotingApp.Login | app.py:214-252 | each outcome holds exactly under its condition (no payload, not exactly one colon, no voter with that aadhaar and hash, voter already voted); only a matching voter without a vote is bound to the session |
| App.VotingApp.Vote | app.py:272-307 | with no session, an already-voted session voter or a party not on the list, nothing changes; otherwise one vote row is added for the session voter and only the chosen party's count rises, by 1 |
| App.VotingApp.RecordVote | app.py:294-303 | the INSERT then the UPDATE: exactly one vote row is added for the session voter, the tally becomes the tally with the party's count raised, the ballot is recorded, and the invariant holds |
| App.VotingApp.ApiResults | app.py:349-364 | the results are the tally rows sorted by descending count, and `total_votes` equals the number of vote rows |
| DbOperations.StoreGetVoterByAadhaar | db_operations.py:36 | the store returns the voter row stored under that aadhaar, if any |
| DbOperations.StoreRegisterVoter | db_operations.py:24-30 | success exactly when the aadhaar is new and 12 digits; then the new tables are the old ones with that one voter row added under the next id and the id counter raised by 1; a refused insert changes nothing |
| DbOperations.StoreCastVote | db_operations.py:48 | the store accepts a vote exactly from a registered voter without one; then the new tables are the old ones with that voter's vote row added and the candidate's count raised, voters and id counter kept; a refused vote changes nothing |
| DbOperations.StoreElectionResults | db_operations.py:52 | the results mapping has a key for every tally row and no other keys |
| DbOperations.RegisterVoter | db_operations.py:19-30 | registration succeeds exactly for a new 12-digit aadhaar, storing the hash of the password and the payload `generate_qr_data(aadhaar, hash)` under the next id, with votes and tally kept; otherwise the store is unchanged |
| DbOperations.AuthenticateVoter | db_operations.py:32-42 | a payload with zero or several colons gives None; a voter returned is stored under an aadhaar whose payload with that voter's hash is the input |
| DbOperations.CastVote | db_operations.py:44-48 | a voter who has already voted is refused and the store is left untouched; otherwise the vote succeeds exactly for a registered voter, adds exactly one vote row, raises the candidate's count and keeps voters and id counter; a refused vote changes nothing |
| DbOperations.GetResults | db_operations.py:50-52 | nothing from the store gives the empty mapping; otherwise the store's mapping is returned |
| DbOperations.RegisterThenAuthenticate | db_operations.py:19-39 | authenticating with the payload a successful registration stored returns the new voter |
| DbOperations.AuthenticateMatchesLogin | db_operations.py:32-42 | fetching by aadhaar and comparing hashes gives the same result as the login handler's query on both columns |
| DbOperations.AuthenticateIffStored | db_operations.py:32-42 | on consistent tables authentication succeeds exactly for a payload some voter stores, and returns that voter |
| DbOperations.CastVoteOnce | db_operations.py:44-48 | after an accepted vote the same voter's next vote is refused and changes nothing |
| DbOperations.CastVoteConsistent | db_operations.py:44-48 | a vote through this layer for a listed party keeps the tables consistent |
| DbOperations.CastVoteUnlistedUncounted | db_operations.py:44-48 | an accepted vote for a name no tally row carries under exact comparison is stored but counted by no row, so the counts no longer add up |
| DbOperations.RegisterVoterConsistent | db_operations.py:19-30 | a registration through this layer keeps the tables consistent |
| DbOperations.ResultsPerParty | db_operations.py:50-52 | on consistent tables the results map every party to its tally count |
| DbOperations.ResultsOfDistinct | db_operations.py:50-52 | with distinct candidate names each row's name maps to that row's count |

## Left out

- Flask plumbing is not modelled: routing, templates, `flash` messages, redirects, the `/done`, `/qr_code`, `/verify` and `/thank-you` pages, and `logout`. Handler results are outcome values instead.
- QR images are not modelled: PNG generation and base64, OpenCV decoding, and saving and removing the upload. The decoder is taken to return the payload unchanged, and `None` stands for "no code found".
- SHA-256 and Fernet are opaque. `sha256` is a parameter. The Fernet token is an argument of `Vote`. The `/results` page decrypts and groups votes, including its "Invalid Vote" bucket; it is not modelled, and the ghost `ballots` map stands for what the tokens decrypt to.
- MySQL connection handling and `execute_query` are not modelled. Every statement commits on its own and a failing statement changes nothing. `START TRANSACTION`, `COMMIT` and `ROLLBACK` are therefore not treated as atomic: the vote is the two statements in sequence.
- Concurrency is not modelled: two requests racing between the already-voted check and the insert, and the server-sent-events loop of `/api/results/stream` with its sleeps.
- Timestamps are not modelled: `created_at`, `voted_at`, `last_updated` and the `timestamp` field of `/api/results`.
- App.VotingApp.Register: assumes the insert succeeds once both guards pass. It does not model MySQL refusing the row for other reasons (a name longer than 100 characters, an invalid date), which would end in "Registration failed".
- App.VotingApp.Register: treats `str.isdigit` as the ASCII digits. Other Unicode digits pass Python's check; on a server that enforces CHECK constraints the table then refuses them, so the tables end up the same.
- App.VotingApp.Login, App.VotingApp.Register, Store.Bump, DbOperations.StoreCastVote: every `column = %s` comparison is modelled as exact string equality. MySQL compares under the column's collation, which the schema (app.py:89-123) leaves to the database default and which is not modelled. Under a case-insensitive or pad-space collation the source differs: `is_registered` (app.py:77-81) finds `"123456789012"` for the input `"123456789012 "`, so the handler answers already registered where `Register` answers invalid aadhaar; the login query (app.py:238-242) matches a hash in other case; and the tally UPDATE (app.py:300-303) would count `"dmk"` on the DMK row, which `DbOperations.CastVoteUnlistedUncounted` does not cover.
- App.VotingApp.constructor: models start-up on an empty schema only. A restart over existing tables keeps their rows and seeds nothing.
- App.VotingApp.Vote: does not model the `except` branch (app.py:308-312). `execute_query` swallows MySQL errors, so that branch is reached only by exceptions that escape it, such as a lost connection: when `connect()` fails, `self.connection` stays None and the next statement raises (db_config.py:62-66). The `ROLLBACK` at app.py:309 then raises again.
- Store.Bump: voter ids and `vote_count` are MySQL 32-bit `INT` columns (app.py:91, app.py:120) and are modelled as unbounded integers. At 2147483647 the UPDATE of the vote handler fails or saturates; a failure is swallowed by `execute_query` (db_config.py:77-81) while the vote row stays, so the sum of counts equal to the number of vote rows no longer describes the program.
- Store.InsertVoter: the `AUTO_INCREMENT` id is unbounded in the model. Past 2147483647 MySQL refuses the insert and registration fails, which the model does not show. A refused insert keeps `nextId` in the model, while InnoDB (the default engine; app.py:89-101 names none) may already have drawn an id for a row the UNIQUE key refuses, so later ids can skip values. The model also assumes a server that enforces the CHECK constraints (app.py:98-99, MySQL 8.0.16 and later); an older server accepts a malformed aadhaar that reaches the store, which `DbOperations.StoreRegisterVoter` and `InsertVoter` refuse. The register handler checks the format itself, so this matters only for `DbOperations.RegisterVoter`.
- DbOperations.StoreRegisterVoter: a refused insert returns the store unchanged, `nextId` included; InnoDB may consume an AUTO_INCREMENT value on a duplicate-key refusal, which the model does not capture (see Store.InsertVoter above).
- `hash_password` is the `sha256` parameter itself, and the `dob.isoformat()` of `register_voter` is left out: dates are the ISO strings the form sends.
- DbOperations.StoreCastVote: the database manager has no `cast_vote`. The model does not check the candidate, because `cast_vote` passes it on unchecked; it updates the tally only when the vote row is accepted.
- The report queries `get_voter_details`, `get_all_voters` and `get_vote_details` are not modelled: they only read.
