/** The durable WalletConnect publication journal: what each operation does to
    the retained records.  Keys are a parameter: the file uses `topic#id`
    strings (see JournalCodec), the protocol model the pair itself. */
module Journal {
  import opened TxTypes

  const MAX_RECORDS := 32

  datatype PublicationState = Signed | Published

  datatype Rec = Rec(topic: string, requestId: nat, intent: Intent, state: PublicationState, block: Block)

  type Records<K(==)> = map<K, Rec>

  /** A new key is refused when the journal is full; an existing one is replaced. */
  function Put<K(==)>(j: Records<K>, key: K, rec: Rec): Option<Records<K>> {
    if key !in j && |j| >= MAX_RECORDS then None else Some(j[key := rec])
  }

  function MarkPublished<K(==)>(j: Records<K>, key: K): Option<Records<K>> {
    if key !in j then None else Some(j[key := j[key].(state := Published)])
  }

  /** Only a resolved record may go; an absent one is not an error. */
  function DeletePublished<K(==)>(j: Records<K>, key: K): Option<Records<K>> {
    if key !in j then Some(j)
    else if j[key].state != Published then None
    else Some(j - {key})
  }

  /** A retained record with this intent in the same session, under another key. */
  predicate SameTopicMatch<K(==)>(j: Records<K>, k: K, topic: string, intent: Intent, exclude: K) {
    k in j && k != exclude && j[k].topic == topic && j[k].intent == intent
  }

  /** A retained record with this intent in any other session. */
  predicate CrossTopicMatch<K(==)>(j: Records<K>, k: K, intent: Intent, exclude: K, skipTopic: string) {
    k in j && k != exclude && j[k].topic != skipTopic && j[k].intent == intent
  }

  ghost predicate NoSameTopicMatch<K(!new)>(j: Records<K>, topic: string, intent: Intent, exclude: K) {
    forall k :: !SameTopicMatch(j, k, topic, intent, exclude)
  }

  ghost predicate NoCrossTopicMatch<K(!new)>(j: Records<K>, intent: Intent, exclude: K, skipTopic: string) {
    forall k :: !CrossTopicMatch(j, k, intent, exclude, skipTopic)
  }

  /** No retained record answers for this request or this intent. */
  ghost predicate Fresh<K(!new)>(j: Records<K>, key: K, intent: Intent) {
    key !in j && forall k :: k in j ==> j[k].intent != intent
  }

  ghost predicate UniqueIntents<K(!new)>(j: Records<K>) {
    forall k, k' :: k in j && k' in j && j[k].intent == j[k'].intent ==> k == k'
  }

  /** The three lookups together see every record, whatever topic a record
      claims: one skips exactly the topic the other requires. */
  lemma LookupIsComplete<K(!new)>(j: Records<K>, key: K, topic: string, intent: Intent)
    ensures (key !in j && NoSameTopicMatch(j, topic, intent, key) && NoCrossTopicMatch(j, intent, key, topic))
            <==> Fresh(j, key, intent)
  {
    if key !in j && NoSameTopicMatch(j, topic, intent, key) && NoCrossTopicMatch(j, intent, key, topic) {
      forall k | k in j ensures j[k].intent != intent {
        assert !SameTopicMatch(j, k, topic, intent, key);
        assert !CrossTopicMatch(j, k, intent, key, topic);
      }
    }
  }

  lemma PutKeepsUnique<K(!new)>(j: Records<K>, key: K, rec: Rec)
    requires UniqueIntents(j) && Fresh(j, key, rec.intent)
    ensures Put(j, key, rec).Some? ==> UniqueIntents(Put(j, key, rec).value)
  {
  }
}
