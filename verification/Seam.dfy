/**
 Where the codec meets the relayer: the event built from a log, the record that `Get` merges into it, and
 the mint transaction built from the result.
 */
module Seam {
  import opened Arithmetic
  import opened Bytes
  import opened Encoding
  import opened Message
  import Bank
  import Records
  import Varint

  // ---------------------------------------------------------------- decimal amounts

  /** `big.Int.String()`. */
  function Decimal(n: nat): (s: bytes)
    ensures s != []
  {
    if n < 10 then [48 + n] else Decimal(n / 10) + [48 + n % 10]
  }

  /** `big.Int.SetString(s, 10)` on a string of digits. */
  function ParseDecimal(s: bytes): int {
    if s == [] then 0
    else
      var digit: int := s[|s| - 1];
      10 * ParseDecimal(s[..|s| - 1]) + (digit - 48)
  }

  lemma {:induction false} DecimalRoundTrip(n: nat)
    ensures ParseDecimal(Decimal(n)) == n
  {
    if n >= 10 {
      DecimalRoundTrip(n / 10);
      assert Decimal(n)[..|Decimal(n)| - 1] == Decimal(n / 10);
    } else {
      assert Decimal(n)[..0] == [];
    }
  }

  lemma {:induction false} DecimalLength(n: nat, k: nat)
    requires k > 0 && n < Pow2(3 * k)
    ensures |Decimal(n)| <= k
  {
    if n >= 10 {
      assert Pow2(3) == 8;
      Pow2Adds(3, 3 * (k - 1));
      DecimalLength(n / 10, k - 1);
    }
  }

  lemma AmountLength(n: uint256)
    ensures |Decimal(n)| <= 86
  {
    Pow2Values();
    Pow2Adds(64, 64);
    Pow2Adds(128, 128);
    Pow2Grows(256, 258);
    assert Pow2(256) == TWO_256;
    DecimalLength(n, 86);
  }

  // ---------------------------------------------------------------- the event of a log

  /**
   `ToEventERC20Deposited` and `ToEventNFTDeposited`. `Int64()` keeps the low 64 bits, and so does
   the conversion of its result to `uint64`.
   */
  function FromLog(nft: bool, d: Bank.Log): Msg
    requires d.Deposited?
  {
    Msg(d.id % TWO_64, d.token, d.sender, if nft then TokenId(d.value % TWO_64) else Amount(Decimal(d.value)),
        0, UNDEFINED, None, [])
  }

  /** A record of this deposit: the relayer only ever changes its retry count and its status. */
  predicate RecordOf(r: Msg, nft: bool, d: Bank.Log)
    requires d.Deposited?
  {
    r == FromLog(nft, d).(retry := r.retry, status := r.status)
  }

  lemma FieldLengths(num: nat, v: uint64, b: bytes)
    requires num < 16 && |b| < 100
    ensures |NumberField(num, v)| <= 11 && |BytesField(num, b)| <= |b| + 11
  {
    Varint.EncodeIsVarint(v);
    Varint.EncodeIsVarint(|b|);
  }

  lemma RecordsAreShort(r: Msg, nft: bool, d: Bank.Log)
    requires d.Deposited? && RecordOf(r, nft, d)
    ensures |Encode(r)| <= 500
  {
    AmountLength(d.value);
    FieldLengths(1, r.id, []);
    FieldLengths(2, 0, r.token);
    FieldLengths(3, 0, r.sender);
    FieldLengths(4, if nft then d.value % TWO_64 else 0, if nft then [] else Decimal(d.value));
    FieldLengths(5, r.retry, []);
    FieldLengths(6, SignExtend(r.status), []);
    hide NumberField, BytesField, SignExtend, Decimal;
  }

  /**
   The merge-read is exact: unmarshalling a stored record of a deposit into the event freshly built from
   that deposit's log gives back the record, zero fields and all. In particular the status the relayer
   then tests is the stored one.
   */
  lemma GetIsExact(r: Msg, nft: bool, d: Bank.Log)
    requires d.Deposited? && RecordOf(r, nft, d)
    ensures |Encode(r)| <= MAX_INT && Unmarshal(Encode(r), FromLog(nft, d)) == Ok(r)
  {
    RecordsAreShort(r, nft, d);
    NothingUnknown();
    hide Unmarshal, Encode, UnknownOnly, Decimal;
    MergeReadIsExact(r, FromLog(nft, d));
  }

  lemma NothingUnknown()
    ensures UnknownOnly([])
  {
    var rs := Records.Nil;
    assert Records.AllWellFormed(rs) && AllUnknown(rs) && Records.AllText(rs) == [];
  }

  // ---------------------------------------------------------------- the mint transaction

  /** A mint on the destination chain: `value` is the amount or the token id. */
  datatype Tx = Tx(to: bytes, recipient: bytes, value: int)

  /** `mint`: the amount is parsed from its decimal string, a token id goes through `int64`. */
  function MintTx(e: Msg, to: bytes): Tx {
    Tx(to, e.sender, match e.body case Amount(t) => ParseDecimal(t) case TokenId(n) => AsInt64(n))
  }

  /**
   The mint pays the depositor exactly what was deposited, except for a token id of 2^63 or more, whose
   conversion to `int64` changes it.
   */
  lemma MintIsDeposit(r: Msg, nft: bool, d: Bank.Log, to: bytes)
    requires d.Deposited? && RecordOf(r, nft, d)
    ensures MintTx(r, to).recipient == d.sender && MintTx(r, to).to == to
    ensures MintTx(r, to).value == d.value <==> (nft ==> d.value < TWO_63)
  {
    DecimalRoundTrip(d.value);
  }
}
