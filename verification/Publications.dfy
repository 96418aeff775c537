/** The journal as the code keeps it: a file of records under text keys, loaded,
    scanned and rewritten in place. */
module Publications {
  import opened TxTypes
  import opened Journal
  import opened JournalCodec

  type File = Records<string>

  /** Records older than the ownership fields take their owner from the key. */
  function Backfill(key: string, rec: Rec): Rec {
    if rec.topic != "" && rec.requestId != 0 then rec
    else match ParseJournalKey(key)
         case None => rec
         case Some((topic, id)) => rec.(topic := topic, requestId := id)
  }

  function Backfilled(f: File): File {
    map k | k in f :: Backfill(k, f[k])
  }

  /** How a request stands with the journal. */
  datatype Lookup = Nothing | Conflict | Replay(rec: Rec) | Duplicate(rec: Rec) | Unreadable

  class WcJournal {
    var file: File

    constructor (file: File)
      ensures this.file == file
    {
      this.file := file;
    }

    method Load() returns (m: File)
      ensures m == Backfilled(file)
    {
      m := file;
      var keys := file.Keys;
      while keys != {}
        invariant keys <= file.Keys && m.Keys == file.Keys
        invariant forall k :: k in file ==> m[k] == if k in keys then file[k] else Backfill(k, file[k])
        decreases keys
      {
        var k :| k in keys;
        if m[k].topic == "" || m[k].requestId == 0 {
          match ParseJournalKey(k) {
            case None =>
            case Some((topic, id)) => m := m[k := m[k].(topic := topic, requestId := id)];
          }
        }
        keys := keys - {k};
      }
    }

    method Get(key: string, readable: bool) returns (rec: Option<Rec>, ok: bool)
      ensures ok <==> readable
      ensures rec == if readable && key in file then Some(Backfill(key, file[key])) else None
    {
      if !readable {
        return None, false;
      }
      var m := Load();
      return if key in m then Some(m[key]) else None, true;
    }

    /** A failed read or write, like a full journal, leaves the file as it was. */
    method PutRecord(key: string, rec: Rec, readable: bool, writable: bool) returns (ok: bool)
      modifies this
      ensures ok <==> readable && writable && Put(Backfilled(old(file)), key, rec).Some?
      ensures file == if ok then Backfilled(old(file))[key := rec] else old(file)
      ensures ok <==> readable && writable && (key in old(file) || |old(file)| < MAX_RECORDS)
      ensures ok ==> key in file && file[key] == rec && file - {key} == Backfilled(old(file)) - {key}
    {
      if !readable {
        return false;
      }
      var m := Load();
      assert m.Keys == file.Keys && |m| == |m.Keys| == |file|;
      if key !in m && |m| >= MAX_RECORDS {
        return false;
      }
      m := m[key := rec];
      if writable {
        file := m;
      }
      return writable;
    }

    method MarkRecordPublished(key: string, readable: bool, writable: bool) returns (ok: bool)
      modifies this
      ensures ok <==> readable && writable && key in old(file)
      ensures file == if ok then MarkPublished(Backfilled(old(file)), key).value else old(file)
      ensures ok ==> key in file && file[key] == Backfilled(old(file))[key].(state := Published)
      ensures ok ==> file[key].state == Published && file - {key} == Backfilled(old(file)) - {key}
    {
      if !readable {
        return false;
      }
      var m := Load();
      if key !in m {
        return false;
      }
      m := m[key := m[key].(state := Published)];
      if writable {
        file := m;
      }
      return writable;
    }

    method DeletePublishedRecord(key: string, readable: bool, writable: bool) returns (ok: bool)
      modifies this
      ensures ok <==> readable && (key !in old(file) || (old(file)[key].state == Published && writable))
      ensures file == if ok && key in old(file) then DeletePublished(Backfilled(old(file)), key).value else old(file)
      ensures ok ==> key !in file
      ensures ok && key in old(file) ==> file == Backfilled(old(file)) - {key}
    {
      if !readable {
        return false;
      }
      var m := Load();
      if key !in m {
        return true;
      }
      if m[key].state != Published {
        return false;
      }
      m := m - {key};
      if writable {
        file := m;
      }
      return writable;
    }

    method FindByIntent(topic: string, intent: Intent, exclude: string, readable: bool) returns (rec: Option<Rec>, ok: bool)
      ensures ok <==> readable
      ensures !ok ==> rec.None?
      ensures ok && rec.None? ==> NoSameTopicMatch(Backfilled(file), topic, intent, exclude)
      ensures rec.Some? ==> exists k :: SameTopicMatch(Backfilled(file), k, topic, intent, exclude) && rec.value == Backfilled(file)[k]
    {
      if !readable {
        return None, false;
      }
      var m := Load();
      var keys := m.Keys;
      while keys != {}
        invariant keys <= m.Keys
        invariant forall k :: k in m && k !in keys ==> !SameTopicMatch(m, k, topic, intent, exclude)
        decreases keys
      {
        var k :| k in keys;
        if k != exclude && m[k].topic == topic && m[k].intent == intent {
          assert SameTopicMatch(m, k, topic, intent, exclude);
          return Some(m[k]), true;
        }
        keys := keys - {k};
      }
      return None, true;
    }

    method FindByIntentAnyTopic(intent: Intent, exclude: string, skipTopic: string, readable: bool)
      returns (rec: Option<Rec>, ok: bool)
      ensures ok <==> readable
      ensures !ok ==> rec.None?
      ensures ok && rec.None? ==> NoCrossTopicMatch(Backfilled(file), intent, exclude, skipTopic)
      ensures rec.Some? ==> exists k :: CrossTopicMatch(Backfilled(file), k, intent, exclude, skipTopic) && rec.value == Backfilled(file)[k]
    {
      if !readable {
        return None, false;
      }
      var m := Load();
      var keys := m.Keys;
      while keys != {}
        invariant keys <= m.Keys
        invariant forall k :: k in m && k !in keys ==> !CrossTopicMatch(m, k, intent, exclude, skipTopic)
        decreases keys
      {
        var k :| k in keys;
        if k != exclude && m[k].topic != skipTopic && m[k].intent == intent {
          assert CrossTopicMatch(m, k, intent, exclude, skipTopic);
          return Some(m[k]), true;
        }
        keys := keys - {k};
      }
      return None, true;
    }

    /** LookupWalletConnectPublication; `intent` is None when the request does not
        validate.  The journal is read up to three times and each read may fail, which
        is reported exactly when a read that is made fails.  Otherwise a valid request
        is told Nothing exactly when the journal holds nothing for its key or intent. */
    method LookupPublication(topic: string, requestId: nat, intent: Option<Intent>,
                             keyReadable: bool, topicReadable: bool, allReadable: bool) returns (r: Lookup)
      ensures topic == "" || requestId == 0 ==> r == Nothing
      ensures topic != "" && requestId != 0 ==>
                var j, key := Backfilled(file), JournalKey(topic, requestId);
                && (r.Unreadable? <==>
                      || !keyReadable
                      || (intent.Some? && key !in j &&
                          (!topicReadable || (NoSameTopicMatch(j, topic, intent.value, key) && !allReadable))))
                && (intent.None? ==> r.Unreadable? || r == Nothing)
                && (intent.Some? && !r.Unreadable? ==>
                      && (r == Nothing <==> Fresh(j, key, intent.value))
                      && (r == Conflict <==> key in j && j[key].intent != intent.value)
                      && (r.Replay? ==> r.rec.intent == intent.value)
                      && (r.Replay? ==> if key in j then r.rec == j[key] else r.rec.topic == topic)
                      && (r.Duplicate? <==> key !in j && NoSameTopicMatch(j, topic, intent.value, key) && !Fresh(j, key, intent.value))
                      && (r.Duplicate? ==> r.rec.intent == intent.value && r.rec.topic != topic))
    {
      if topic == "" || requestId == 0 {
        return Nothing;
      }
      var key := JournalKey(topic, requestId);
      var rec, ok := Get(key, keyReadable);
      if !ok {
        return Unreadable;
      }
      if intent.None? {
        return Nothing;
      }
      LookupIsComplete(Backfilled(file), key, topic, intent.value);
      if rec.Some? {
        if rec.value.intent != intent.value {
          return Conflict;
        }
        return Replay(rec.value);
      }
      var same, sameOk := FindByIntent(topic, intent.value, key, topicReadable);
      if !sameOk {
        return Unreadable;
      }
      if same.Some? {
        return Replay(same.value);
      }
      var cross, crossOk := FindByIntentAnyTopic(intent.value, key, topic, allReadable);
      if !crossOk {
        return Unreadable;
      }
      if cross.Some? {
        return Duplicate(cross.value);
      }
      return Nothing;
    }
  }

  /** Loading is stable, and never changes intent, state or block. */
  lemma BackfillOnce(f: File)
    ensures Backfilled(Backfilled(f)) == Backfilled(f)
    ensures Backfilled(f).Keys == f.Keys
    ensures forall k :: k in f ==> Backfilled(f)[k].intent == f[k].intent && Backfilled(f)[k].state == f[k].state &&
                                   Backfilled(f)[k].block == f[k].block
    ensures forall k :: k in f && f[k].topic != "" && f[k].requestId != 0 ==> Backfilled(f)[k] == f[k]
  {
  }

  /** A record written before the ownership fields existed is owned by the request
      its key was written for: a reissue in its session is replayed, never taken for
      another session's. */
  lemma LegacyRecordsKeepTheirSession(f: File, topic: string, id: nat, rec: Rec, other: string, intent: Intent)
    requires 0 < id <= MAX_UINT64 && JournalKey(topic, id) in f && f[JournalKey(topic, id)] == rec
    requires (rec.topic == "" || rec.requestId == 0) && rec.intent == intent && other != JournalKey(topic, id)
    ensures Backfilled(f)[JournalKey(topic, id)].topic == topic && Backfilled(f)[JournalKey(topic, id)].requestId == id
    ensures !NoSameTopicMatch(Backfilled(f), topic, intent, other)
  {
    ParseInvertsKey(topic, id);
    assert SameTopicMatch(Backfilled(f), JournalKey(topic, id), topic, intent, other);
  }
}
