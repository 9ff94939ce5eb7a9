/** The session repository of the second draft (`pkg/database/mongo.go`).
    The collection is a map from user id to record; the filter on
    `user_id` becomes the map key. Whether the database answers is an
    explicit `fault` input. */
module Database {
  import opened Base

  datatype PreAnalysisRecord = PreAnalysisRecord(repoURL: string, systemURL: string, problemDescription: string)

  /** The stored document of one conversation. */
  datatype DbSession = DbSession(userID: string, state: string, domain: string, preAnalysis: PreAnalysisRecord)

  /** Every record sits under its own user id. */
  predicate WellKeyed(m: map<string, DbSession>)
  {
    forall k :: k in m ==> m[k].userID == k
  }

  type Repo = m: map<string, DbSession> | WellKeyed(m) witness map[]

  datatype DbError = LoadFailed | SaveFailed

  /** The state name a conversation starts in. */
  const InitialStateName := "INITIAL"

  /** What a user without a stored record is given. */
  function NewRecord(userID: string): DbSession
  {
    DbSession(userID, InitialStateName, "", PreAnalysisRecord("", "", ""))
  }

  /** Loads the record of `userID`. A missing record is not an error: the
      user gets an INITIAL record with nothing else filled in. Any other
      database failure is an error and yields no record. */
  function LoadSession(repo: Repo, userID: string, fault: bool): (r: Result<DbSession, DbError>)
    ensures fault <==> r.Failure?
    ensures r.Success? ==> r.value.userID == userID
    ensures !fault && userID in repo ==> r.value == repo[userID]
    ensures !fault && userID !in repo ==>
              && r.value.state == InitialStateName
              && r.value.domain == ""
              && r.value.preAnalysis == PreAnalysisRecord("", "", "")
  {
    if fault then Failure(LoadFailed)
    else if userID in repo then Success(repo[userID])
    else Success(NewRecord(userID))
  }

  /** What a `$set` upsert of `s` leaves in the collection for its user:
      `domain` is tagged `omitempty`, so an empty domain is not written and
      a domain stored earlier survives. Every other field is written. */
  function Stored(repo: Repo, s: DbSession): (d: DbSession)
    ensures d.userID == s.userID && d.state == s.state && d.preAnalysis == s.preAnalysis
    ensures s.domain != "" ==> d.domain == s.domain
    ensures s.domain == "" && s.userID !in repo ==> d.domain == ""
    ensures s.domain == "" && s.userID in repo ==> d.domain == repo[s.userID].domain
  {
    if s.domain == "" && s.userID in repo then s.(domain := repo[s.userID].domain) else s
  }

  /** Upserts `s` under its own user id; on failure nothing is written. */
  function SaveSession(repo: Repo, s: DbSession, fault: bool): (r: Result<Repo, DbError>)
    ensures fault <==> r.Failure?
    ensures r.Success? ==> r.value.Keys == repo.Keys + {s.userID}
    ensures r.Success? ==> r.value[s.userID] == Stored(repo, s)
    ensures r.Success? ==> forall k :: k in repo && k != s.userID ==> r.value[k] == repo[k]
  {
    if fault then Failure(SaveFailed) else Success(repo[s.userID := Stored(repo, s)])
  }

  /** A successful save is what the next load of that user returns, except
      that an empty domain does not clear one stored before. */
  lemma SaveThenLoad(repo: Repo, s: DbSession)
    ensures SaveSession(repo, s, false).Success?
    ensures LoadSession(SaveSession(repo, s, false).value, s.userID, false) == Success(Stored(repo, s))
    ensures s.domain != "" || s.userID !in repo || repo[s.userID].domain == "" ==>
              LoadSession(SaveSession(repo, s, false).value, s.userID, false) == Success(s)
  {
  }

  /** Saving back a record just loaded, with any fields but the domain
      changed, stores exactly that record. */
  lemma SaveLoadedRecord(repo: Repo, userID: string, s: DbSession)
    requires LoadSession(repo, userID, false).Success?
    requires s == LoadSession(repo, userID, false).value.(state := s.state, preAnalysis := s.preAnalysis)
    ensures LoadSession(SaveSession(repo, s, false).value, userID, false) == Success(s)
  {
  }

  /** Saving a record with an empty domain over a stored one writes
      every other field and keeps the stored domain. */
  lemma EmptyDomainDoesNotClear(repo: Repo, s: DbSession)
    requires s.domain == "" && s.userID in repo
    ensures LoadSession(SaveSession(repo, s, false).value, s.userID, false)
            == Success(s.(domain := repo[s.userID].domain))
  {
  }

  /** Saving one user's record never changes what another user loads. */
  lemma SaveIsLocal(repo: Repo, s: DbSession, other: string, fault: bool)
    requires other != s.userID
    ensures LoadSession(SaveSession(repo, s, false).value, other, fault) == LoadSession(repo, other, fault)
  {
  }
}
