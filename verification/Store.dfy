/**
 The shared key-value store and the keys its record kinds live under. A prefix store prepends its prefix
 to every key.
 */
module Store {
  import opened Bytes

  function Ascii(s: string): bytes
    requires forall k :: 0 <= k < |s| ==> s[k] as int < 256
  {
    seq(|s|, k requires 0 <= k < |s| => s[k] as int)
  }

  const PREFIX_EVENT_ERC20: bytes := Ascii(".eventerc20")
  const PREFIX_EVENT_NFT: bytes := Ascii(".eventnft")
  const PREFIX_CONFIRMED_BLOCK: bytes := Ascii(".confirmedblok")
  const PREFIX_ADDR_PAIR: bytes := Ascii(".pair")
  const KEY_ERC20: bytes := Ascii(".erc20")
  const KEY_NFT: bytes := Ascii(".nft")

  /** `n` in `width` bytes, the most significant first. */
  function BigEndian(n: nat, width: nat): (s: bytes)
    ensures |s| == width
  {
    if width == 0 then [] else BigEndian(n / 256, width - 1) + [n % 256]
  }

  function Pow256(width: nat): nat {
    if width == 0 then 1 else 256 * Pow256(width - 1)
  }

  lemma {:induction false} BigEndianInjective(m: nat, n: nat, width: nat)
    requires m < Pow256(width) && n < Pow256(width)
    ensures BigEndian(m, width) == BigEndian(n, width) ==> m == n
  {
    if width != 0 && BigEndian(m, width) == BigEndian(n, width) {
      var a, b := BigEndian(m / 256, width - 1), BigEndian(n / 256, width - 1);
      assert (a + [m % 256])[..width - 1] == a && (b + [n % 256])[..width - 1] == b;
      assert (a + [m % 256])[width - 1] == (b + [n % 256])[width - 1];
      BigEndianInjective(m / 256, n / 256, width - 1);
    }
  }

  /** The number that bytes spell when they are read one after the other, each worth 256 times less than the last. */
  function NumberOf(s: bytes, read: nat): nat {
    if s == [] then read else NumberOf(s[1..], 256 * read + s[0])
  }

  lemma {:induction false} NumberOfMore(s: bytes, b: byte, read: nat)
    ensures NumberOf(s + [b], read) == 256 * NumberOf(s, read) + b
    decreases |s|
  {
    if s == [] {
      assert [b][1..] == [];
    } else {
      assert (s + [b])[1..] == s[1..] + [b];
      NumberOfMore(s[1..], b, 256 * read + s[0]);
    }
  }

  /** The bytes of a number, from the first on, spell it. */
  lemma {:induction false} BigEndianReads(n: nat, width: nat)
    requires n < Pow256(width)
    ensures NumberOf(BigEndian(n, width), 0) == n
  {
    if width > 0 {
      BigEndianReads(n / 256, width - 1);
      NumberOfMore(BigEndian(n / 256, width - 1), n % 256, 0);
    }
  }

  /** Everything the relayer keeps in the store. */
  datatype Key = EventKey(nft: bool, id: uint64) | BlockKey(nft: bool) | PairKey(token: bytes)

  function Prefix(k: Key): bytes {
    match k
    case EventKey(nft, _) => if nft then PREFIX_EVENT_NFT else PREFIX_EVENT_ERC20
    case BlockKey(_) => PREFIX_CONFIRMED_BLOCK
    case PairKey(_) => PREFIX_ADDR_PAIR
  }

  /** The key within its prefix store. */
  function StoreKey(k: Key): bytes {
    match k
    case EventKey(_, id) => BigEndian(id, 8)
    case BlockKey(nft) => if nft then KEY_NFT else KEY_ERC20
    case PairKey(token) => token
  }

  function FullKey(k: Key): bytes {
    Prefix(k) + StoreKey(k)
  }

  /** Keys of all kinds, byte by byte. */
  lemma KeyBytes(token: bytes)
    ensures FullKey(BlockKey(false)) == Ascii(".confirmedblok") + Ascii(".erc20")
    ensures FullKey(BlockKey(true)) == Ascii(".confirmedblok") + Ascii(".nft")
    ensures FullKey(PairKey(token)) == Ascii(".pair") + token
    ensures FullKey(EventKey(false, 258)) == Ascii(".eventerc20") + [0, 0, 0, 0, 0, 0, 1, 2]
    ensures FullKey(EventKey(true, 258)) == Ascii(".eventnft") + [0, 0, 0, 0, 0, 0, 1, 2]
  {
    LastBytes();
    hide Ascii, BigEndian;
  }

  lemma LastBytes()
    ensures BigEndian(258, 8) == [0, 0, 0, 0, 0, 0, 1, 2]
  {
    assert BigEndian(258, 8) == BigEndian(1, 7) + [2];
    assert BigEndian(1, 7) == BigEndian(0, 6) + [1];
    assert BigEndian(0, 6) == BigEndian(0, 3) + [0, 0, 0];
    assert BigEndian(0, 3) == [0, 0, 0];
  }

  lemma PrefixesApart(k: Key, l: Key)
    ensures || Prefix(k) == Prefix(l)
            || (|Prefix(k)| > 6 && |Prefix(l)| > 6 && Prefix(k)[6] != Prefix(l)[6])
            || Prefix(k)[1] != Prefix(l)[1]
    ensures |Prefix(k)| > 1
  {}

  /** No record's key is another record's: two full keys are equal only if they are the same key. */
  lemma KeysInjective(k: Key, l: Key)
    ensures FullKey(k) == FullKey(l) <==> k == l
  {
    if FullKey(k) == FullKey(l) {
      PrefixesApart(k, l);
      var p, q := Prefix(k), Prefix(l);
      assert FullKey(k)[1] == p[1] && FullKey(l)[1] == q[1];
      if |p| > 6 && |q| > 6 {
        assert FullKey(k)[6] == p[6] && FullKey(l)[6] == q[6];
      }
      assert p == q;
      assert StoreKey(k) == FullKey(k)[|p|..] == FullKey(l)[|p|..] == StoreKey(l);
      SameStore(k, l);
    }
  }

  lemma SameStore(k: Key, l: Key)
    requires Prefix(k) == Prefix(l) && StoreKey(k) == StoreKey(l)
    ensures k == l
  {
    if k.EventKey? && l.EventKey? {
      assert Pow256(4) == 256 * 256 * 256 * 256;
      assert Pow256(8) == 256 * 256 * 256 * 256 * Pow256(4);
      BigEndianInjective(k.id, l.id, 8);
    }
    assert PREFIX_EVENT_ERC20[6] == 'e' as int && PREFIX_EVENT_NFT[6] == 'n' as int;
    assert PREFIX_EVENT_ERC20[1] == 'e' as int && PREFIX_EVENT_NFT[1] == 'e' as int;
    assert PREFIX_CONFIRMED_BLOCK[1] == 'c' as int && PREFIX_ADDR_PAIR[1] == 'p' as int;
    assert KEY_ERC20[1] == 'e' as int && KEY_NFT[1] == 'n' as int;
  }

  /**
   What a key holds: the bytes of an event message, the number of a confirmed block, or the destination
   contract of a pair.
   */
  datatype Value = Record(text: bytes) | Block(number: uint64) | Pair(out: bytes)

  /** `None` is `ErrNotFound`. */
  function Find(kv: map<bytes, Value>, k: Key): Option<Value> {
    if FullKey(k) in kv then Some(kv[FullKey(k)]) else None
  }

  /** The store. Whether a write reports an error is the environment's choice. */
  class DB {
    var kv: map<bytes, Value>

    constructor ()
      ensures kv == map[]
    {
      kv := map[];
    }

    method Get(k: Key) returns (v: Option<Value>)
      ensures v == Find(kv, k)
    {
      v := if FullKey(k) in kv then Some(kv[FullKey(k)]) else None;
    }

    /** Every other record reads as before. */
    method Put(k: Key, v: Value, works: bool) returns (ok: bool)
      modifies this
      ensures ok == works
      ensures Find(kv, k) == if ok then Some(v) else Find(old(kv), k)
      ensures forall l :: l != k ==> Find(kv, l) == Find(old(kv), l)
    {
      if !works {
        return false;
      }
      forall l: Key
        ensures FullKey(l) == FullKey(k) <==> l == k
      {
        KeysInjective(l, k);
      }
      kv := kv[FullKey(k) := v];
      return true;
    }
  }

  /** The persisted watermark of a kind; a block number never written is 0. */
  function Watermark(v: Option<Value>): uint64 {
    if v.Some? && v.value.Block? then v.value.number else 0
  }
}
