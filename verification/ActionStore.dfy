/**
 What persistence.py keeps in the engine's store: one JSON object per action of
 a match.
 */
module ActionStore {
  import opened Wrappers

  const STATUS := "status"
  const STARTED := "started"
  const FAILED := "failed"
  const SUCCESSFUL := "successful"
  const COMPLETED_STATUSES := {FAILED, SUCCESSFUL}

  // A stored JSON object; None is a JSON null.
  type Info = map<string, Option<string>>

  datatype MatchId = MatchId(ruleset: string, uuid: string)
  datatype Key = Key(owner: MatchId, index: nat)
  type Records = map<Key, Info>

  const STARTED_INFO: Info := map[STATUS := Some(STARTED)]

  function Lookup(records: Records, key: Key): Option<Info> {
    if key in records then Some(records[key]) else None
  }

  function Merge(saved: Option<Info>, info: Info): Info {
    (if saved.Some? then saved.value else map[]) + info
  }

  function Updated(records: Records, key: Key, info: Info): Records {
    records[key := Merge(Lookup(records, key), info)]
  }

  function WithoutMatch(records: Records, m: MatchId): Records {
    map k | k in records && k.owner != m :: records[k]
  }

  predicate Completed(info: Info) {
    STATUS in info && info[STATUS].Some? && info[STATUS].value in COMPLETED_STATUSES
  }

  predicate CompletedAt(records: Records, m: MatchId, i: nat) {
    Key(m, i) in records && Completed(records[Key(m, i)])
  }

  // _run_action: the record an action starts from.
  function StartRecords(records: Records, key: Key): Records {
    if key in records then records else records[key := STARTED_INFO]
  }

  // The finally clause of _call_action.
  function FinishRecords(records: Records, key: Key, last: bool, status: string): Records {
    if last then WithoutMatch(records, key.owner) else Updated(records, key, map[STATUS := Some(status)])
  }

  // The words other versions of the program find in the store.
  lemma StoredWords(records: Records, key: Key, info: Info)
    ensures key !in records ==> StartRecords(records, key) == records[key := map["status" := Some("started")]]
    ensures key in records ==> StartRecords(records, key) == records
    ensures Completed(info) <==> "status" in info && info["status"] in {Some("failed"), Some("successful")}
  {
  }
}
