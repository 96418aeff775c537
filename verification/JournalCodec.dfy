/** The text forms behind the journal: the `topic#id` key and the intent preimage. */
module JournalCodec {
  import opened TxTypes
  import opened Decimals

  const MAX_UINT64 := 0xFFFF_FFFF_FFFF_FFFF

  // ---- Keys

  function JournalKey(topic: string, id: nat): string {
    topic + "#" + Decimal(id)
  }

  /** strings.LastIndex(s, "#"). */
  function LastHash(s: string): (r: Option<nat>)
    ensures r.Some? ==> r.value < |s| && s[r.value] == '#' && forall i :: r.value < i < |s| ==> s[i] != '#'
    ensures r.None? ==> forall i :: 0 <= i < |s| ==> s[i] != '#'
  {
    if s == [] then None
    else if s[|s| - 1] == '#' then Some(|s| - 1)
    else LastHash(s[..|s| - 1])
  }

  /** strconv.ParseUint(s, 10, 64). */
  function ParseUint(s: string): Option<nat> {
    if s == [] || !AllDigits(s) || Value(s) > MAX_UINT64 then None else Some(Value(s))
  }

  function ParseJournalKey(key: string): Option<(string, nat)> {
    match LastHash(key)
    case None => None
    case Some(i) =>
      match ParseUint(key[i + 1..])
      case None => None
      case Some(id) => Some((key[..i], id))
  }

  lemma {:induction false} LastHashAt(topic: string, tail: string)
    requires forall i :: 0 <= i < |tail| ==> tail[i] != '#'
    ensures LastHash(topic + "#" + tail) == Some(|topic|)
  {
    var s := topic + "#" + tail;
    if tail != [] {
      LastHashAt(topic, tail[..|tail| - 1]);
      assert s[..|s| - 1] == topic + "#" + tail[..|tail| - 1];
    }
  }

  /** Parsing inverts formatting for every topic, hashes included, and every id. */
  lemma ParseInvertsKey(topic: string, id: nat)
    requires id <= MAX_UINT64
    ensures ParseJournalKey(JournalKey(topic, id)) == Some((topic, id))
  {
    var key, tail := JournalKey(topic, id), Decimal(id);
    LastHashAt(topic, tail);
    assert key[|topic| + 1..] == tail && key[..|topic|] == topic;
    ValueOfDecimal(id);
  }

  /** A number beyond 64 bits is no request id: its key names no owner. */
  lemma ParseRejectsOverflow(topic: string, id: nat)
    requires id > MAX_UINT64
    ensures ParseJournalKey(JournalKey(topic, id)).None?
  {
    var key, tail := JournalKey(topic, id), Decimal(id);
    LastHashAt(topic, tail);
    assert key[|topic| + 1..] == tail;
    ValueOfDecimal(id);
  }

  lemma KeyIsInjective(t: string, i: nat, u: string, j: nat)
    requires i <= MAX_UINT64 && j <= MAX_UINT64 && JournalKey(t, i) == JournalKey(u, j)
    ensures t == u && i == j
  {
    ParseInvertsKey(t, i);
    ParseInvertsKey(u, j);
  }

  /** A parsed key is the key of its owner exactly when its number is canonical:
      `t#007` names the owner (t, 7) but is not the key written for it. */
  lemma KeyOfParsed(key: string)
    requires ParseJournalKey(key).Some?
    ensures var (topic, id) := ParseJournalKey(key).value;
            JournalKey(topic, id) == key <==> Canonical(key[LastHash(key).value + 1..])
  {
    var i := LastHash(key).value;
    var (topic, id) := ParseJournalKey(key).value;
    var tail := key[i + 1..];
    assert key == topic + "#" + tail;
    DecimalIsCanonical(id);
    if Canonical(tail) {
      CanonicalIsDecimal(tail);
    }
    if JournalKey(topic, id) == key {
      assert JournalKey(topic, id)[i + 1..] == Decimal(id);
    }
  }

  // ---- Intent preimage

  /** The fields walletConnectIntentHash writes, as it writes them. */
  datatype IntentFields = IntentFields(chain: nat, blockType: nat, sender: string, to: string,
                                       amount: nat, zts: string, data: string)

  predicate NoBar(s: string) {
    forall i :: 0 <= i < |s| ==> s[i] != '|'
  }

  /** Addresses and token standards are bech32 text, which has no bar. */
  predicate Encodable(f: IntentFields) {
    NoBar(f.sender) && NoBar(f.to) && NoBar(f.zts)
  }

  function Joined(fields: seq<string>, data: string): string {
    if fields == [] then data else fields[0] + "|" + Joined(fields[1..], data)
  }

  function Texts(f: IntentFields): seq<string> {
    [Decimal(f.chain), Decimal(f.blockType), f.sender, f.to, Decimal(f.amount), f.zts]
  }

  function Preimage(f: IntentFields): string {
    Joined(Texts(f), f.data)
  }

  function FirstBar(s: string): nat {
    if s == [] || s[0] == '|' then 0 else 1 + FirstBar(s[1..])
  }

  lemma {:induction false} FirstBarAt(a: string, x: string)
    requires NoBar(a)
    ensures FirstBar(a + "|" + x) == |a|
  {
    if a != [] {
      FirstBarAt(a[1..], x);
      assert (a + "|" + x)[1..] == a[1..] + "|" + x;
    }
  }

  lemma FirstBarSplits(a: string, x: string, b: string, y: string)
    requires NoBar(a) && NoBar(b) && a + "|" + x == b + "|" + y
    ensures a == b && x == y
  {
    var s := a + "|" + x;
    FirstBarAt(a, x);
    FirstBarAt(b, y);
    assert a == s[..|a|] && b == s[..|b|];
    assert x == s[|a| + 1..] && y == s[|b| + 1..];
  }

  lemma {:induction false} JoinIsInjective(fs: seq<string>, x: string, gs: seq<string>, y: string)
    requires |fs| == |gs| && Joined(fs, x) == Joined(gs, y)
    requires (forall i :: 0 <= i < |fs| ==> NoBar(fs[i])) && (forall i :: 0 <= i < |gs| ==> NoBar(gs[i]))
    ensures fs == gs && x == y
  {
    if fs != [] {
      FirstBarSplits(fs[0], Joined(fs[1..], x), gs[0], Joined(gs[1..], y));
      JoinIsInjective(fs[1..], x, gs[1..], y);
      assert fs == [fs[0]] + fs[1..] && gs == [gs[0]] + gs[1..];
    }
  }

  /** Two intents with one preimage are one intent, whatever bytes the call data
      holds. */
  lemma PreimageIsInjective(f: IntentFields, g: IntentFields)
    requires Encodable(f) && Encodable(g) && Preimage(f) == Preimage(g)
    ensures f == g
  {
    var fs, gs := Texts(f), Texts(g);
    JoinIsInjective(fs, f.data, gs, g.data);
    assert fs[0] == gs[0] && fs[1] == gs[1] && fs[2] == gs[2] && fs[3] == gs[3] && fs[4] == gs[4] && fs[5] == gs[5];
    DecimalIsInjective(f.chain, g.chain);
    DecimalIsInjective(f.blockType, g.blockType);
    DecimalIsInjective(f.amount, g.amount);
  }
}
