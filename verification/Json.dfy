/** JSON values as the job queue stores them, and what Lua's cjson makes of them.

    The claim script decodes a stored job into a Lua table and encodes that table again
    (crates/queue/src/redis_store.rs:48-51). A Lua table cannot tell an empty array from an empty object, and every
    number is a float printed with 14 significant digits, so the round trip is not the identity. */
module Json {
  import opened Text

  datatype Json =
    | Null
    | Bool(b: bool)
    | Int(n: int)
    | Float(digits: int, exp: int)  // digits * 10^exp, printed with a point or an exponent
    | Rounded                       // another number in place of one that Lua could not keep
    | Str(s: string)
    | Arr(items: seq<Json>)
    | Obj(fields: seq<Field>)

  datatype Field = Field(key: string, value: Json)

  /** The first integer that 14 significant digits cannot spell without an exponent. */
  const LUA_PRECISION := 100_000_000_000_000

  predicate PlainInt(n: int) {
    -LUA_PRECISION < n < LUA_PRECISION
  }

  function Pow10(e: nat): (p: nat)
    ensures p > 0
  {
    if e == 0 then 1 else 10 * Pow10(e - 1)
  }

  /** Without its trailing zeros. */
  function Stripped(digits: int): int
    decreases if digits < 0 then -digits else digits
  {
    if digits != 0 && digits % 10 == 0 then Stripped(digits / 10) else digits
  }

  /** The float is a whole number, however it is written: 1.0 is ten tenths. */
  predicate Whole(digits: int, exp: int) {
    exp >= 0 || digits % Pow10(-exp) == 0
  }

  function WholeValue(digits: int, exp: int): int
    requires Whole(digits, exp)
  {
    if exp >= 0 then digits * Pow10(exp) else digits / Pow10(-exp)
  }

  // What the numbers are, told by their decimal digits.

  lemma {:induction false} DigitsBound(n: nat, k: nat)
    requires k >= 1
    ensures |Digits(n)| <= k <==> n < Pow10(k)
    decreases k
  {
    if n >= 10 {
      if k > 1 {
        DigitsBound(n / 10, k - 1);
      } else {
        assert Pow10(1) == 10 * Pow10(0) && |Digits(n / 10)| >= 1;
      }
    } else {
      Pow10AtLeastTen(k);
    }
  }

  lemma {:induction false} Pow10AtLeastTen(k: nat)
    requires k >= 1
    ensures Pow10(k) >= 10
  {
    if k > 1 { Pow10AtLeastTen(k - 1); } else { assert Pow10(1) == 10 * Pow10(0); }
  }

  /** A plain integer is one of at most 14 digits. */
  lemma PlainIntIff(n: int)
    ensures PlainInt(n) <==> |Digits(if n < 0 then -n else n)| <= 14
  {
    DigitsBound(if n < 0 then -n else n, 14);
    assert Pow10(14) == LUA_PRECISION by {
      assert Pow10(4) == 10_000 && Pow10(8) == 10_000 * Pow10(4) && Pow10(12) == 10_000 * Pow10(8);
    }
  }

  /** A power of ten is a one and its zeros. */
  lemma Pow10Digits(e: nat)
    ensures Digits(Pow10(0)) == "1" && Digits(Pow10(e + 1)) == Digits(Pow10(e)) + "0"
  {
    Pow10AtLeastTen(e + 1);
  }

  /** Stripping takes away trailing zeros, all of them, and nothing else. */
  lemma {:induction false} StrippedIs(digits: int) returns (zeros: nat)
    ensures digits == Stripped(digits) * Pow10(zeros) && (digits != 0 ==> Stripped(digits) % 10 != 0)
    decreases if digits < 0 then -digits else digits
  {
    if digits != 0 && digits % 10 == 0 {
      zeros := StrippedIs(digits / 10);
      assert digits == 10 * (digits / 10);
      zeros := zeros + 1;
    } else {
      zeros := 0;
    }
  }

  lemma MultiplesApart(k: int, p: int)
    requires p > 0
    ensures k == 0 || k * p >= p || k * p <= -p
  {
    if k >= 1 { assert (k - 1) * p >= 0; }
    if k <= -1 { assert (-k - 1) * p >= 0; }
  }

  lemma DivideOut(v: int, p: nat)
    requires p > 0
    ensures v * p % p == 0 && v * p / p == v
  {
    var x := v * p;
    var q, r := x / p, x % p;
    assert x == q * p + r && 0 <= r < p;
    assert (v - q) * p == r;
    MultiplesApart(v - q, p);
  }

  /** Digits and exponent make a whole number `v` exactly when `v` times that many tens is the digits. */
  lemma WholeIff(digits: int, exp: int, v: int)
    ensures exp >= 0 ==> Whole(digits, exp) && WholeValue(digits, exp) == digits * Pow10(exp)
    ensures exp < 0 ==> (Whole(digits, exp) && WholeValue(digits, exp) == v <==> digits == v * Pow10(-exp))
  {
    if exp < 0 {
      var p := Pow10(-exp);
      DivideOut(v, p);
      assert digits == digits / p * p + digits % p;
    }
  }

  /** What becomes of a float: too many digits are rounded off, and a whole number that needs no exponent loses its
      point and reads back as an integer. */
  function RecodeFloat(digits: int, exp: int): Json {
    if !PlainInt(Stripped(digits)) then Rounded
    else if Whole(digits, exp) && PlainInt(WholeValue(digits, exp)) then Int(WholeValue(digits, exp))
    else Float(digits, exp)
  }

  /** `cjson.encode(cjson.decode(j))`. */
  function Recode(j: Json): Json {
    match j
    case Null => Null
    case Bool(b) => Bool(b)
    case Int(n) => if PlainInt(n) then j else Rounded
    case Float(digits, exp) => RecodeFloat(digits, exp)
    case Rounded => Rounded
    case Str(s) => Str(s)
    case Arr(items) => if items == [] then Obj([]) else Arr(RecodeItems(items))
    case Obj(fields) => Obj(RecodeFields(fields))
  }

  function RecodeItems(items: seq<Json>): seq<Json> {
    if items == [] then [] else [Recode(items[0])] + RecodeItems(items[1..])
  }

  function RecodeFields(fields: seq<Field>): seq<Field> {
    if fields == [] then [] else [Field(fields[0].key, Recode(fields[0].value))] + RecodeFields(fields[1..])
  }

  /** Nowhere inside an empty array, an integer of more than 14 digits, a float of more than 14 significant digits, or a
      float that is a whole number of at most 14 digits. */
  predicate Plain(j: Json) {
    match j
    case Int(n) => PlainInt(n)
    case Float(digits, exp) => PlainInt(Stripped(digits)) && (Whole(digits, exp) ==> !PlainInt(WholeValue(digits, exp)))
    case Arr(items) => items != [] && forall i :: i in items ==> Plain(i)
    case Obj(fields) => forall f :: f in fields ==> Plain(f.value)
    case _ => true
  }

  /** Exactly the plain values come back from Lua unchanged. */
  lemma {:induction false} RecodeIsIdentityOnPlain(j: Json)
    ensures Recode(j) == j <==> Plain(j)
    decreases j, 0
  {
    match j
    case Arr(items) => RecodeItemsIsIdentityOnPlain(items);
    case Obj(fields) => RecodeFieldsIsIdentityOnPlain(fields);
    case _ =>
  }

  lemma {:induction false} RecodeItemsIsIdentityOnPlain(items: seq<Json>)
    ensures RecodeItems(items) == items <==> forall i :: i in items ==> Plain(i)
    decreases items, 0
  {
    if items != [] {
      RecodeIsIdentityOnPlain(items[0]);
      RecodeItemsIsIdentityOnPlain(items[1..]);
      assert items == [items[0]] + items[1..];
    }
  }

  lemma {:induction false} RecodeFieldsIsIdentityOnPlain(fields: seq<Field>)
    ensures RecodeFields(fields) == fields <==> forall f :: f in fields ==> Plain(f.value)
    decreases fields, 0
  {
    if fields != [] {
      RecodeIsIdentityOnPlain(fields[0].value);
      RecodeFieldsIsIdentityOnPlain(fields[1..]);
      assert fields == [fields[0]] + fields[1..];
      assert RecodeFields(fields)[1..] == RecodeFields(fields[1..]);
    }
  }

  lemma {:induction false} RecodeItemsAre(items: seq<Json>, i: nat)
    requires i < |items|
    ensures |RecodeItems(items)| == |items| && RecodeItems(items)[i] == Recode(items[i])
    decreases items
  {
    if i > 0 { RecodeItemsAre(items[1..], i - 1); } else if |items| > 1 { RecodeItemsAre(items[1..], 0); }
  }

  lemma {:induction false} RecodeFieldsAre(fields: seq<Field>, i: nat)
    requires i < |fields|
    ensures |RecodeFields(fields)| == |fields| && RecodeFields(fields)[i] == Field(fields[i].key, Recode(fields[i].value))
    decreases fields
  {
    if i > 0 { RecodeFieldsAre(fields[1..], i - 1); } else if |fields| > 1 { RecodeFieldsAre(fields[1..], 0); }
  }

  /** What Lua does change: an empty array becomes an empty object, a number too long another number, and a whole float of
      at most 14 digits the integer it stands for. Everything else keeps its shape, with the same changes inside. */
  lemma RecodeChanges(j: Json, i: nat)
    ensures Recode(Arr([])) == Obj([]) == Recode(Obj([]))
    ensures j.Arr? && i < |j.items| ==> Recode(j).Arr? && |Recode(j).items| == |j.items| && Recode(j).items[i] == Recode(j.items[i])
    ensures j.Obj? && i < |j.fields| ==>
      Recode(j).Obj? && |Recode(j).fields| == |j.fields| && Recode(j).fields[i] == Field(j.fields[i].key, Recode(j.fields[i].value))
    ensures j.Int? ==> Recode(j) == if PlainInt(j.n) then j else Rounded
    ensures j.Float? && Whole(j.digits, j.exp) && Recode(j) != Rounded ==>
      Recode(j) == if PlainInt(WholeValue(j.digits, j.exp)) then Int(WholeValue(j.digits, j.exp)) else j
    ensures j.Float? && !Whole(j.digits, j.exp) ==> Recode(j) == if PlainInt(Stripped(j.digits)) then j else Rounded
  {
    if j.Arr? && i < |j.items| { RecodeItemsAre(j.items, i); }
    if j.Obj? && i < |j.fields| { RecodeFieldsAre(j.fields, i); }
  }

  /** What has been through Lua once comes back unchanged from then on. */
  lemma {:induction false} RecodeOnceIsEnough(j: Json)
    ensures Plain(Recode(j)) && Recode(Recode(j)) == Recode(j)
  {
    RecodedIsPlain(j);
    RecodeIsIdentityOnPlain(Recode(j));
  }

  lemma {:induction false} RecodedIsPlain(j: Json)
    ensures Plain(Recode(j))
    decreases j, 0
  {
    match j
    case Arr(items) => RecodedItemsArePlain(items);
    case Obj(fields) => RecodedFieldsArePlain(fields);
    case _ =>
  }

  lemma {:induction false} RecodedItemsArePlain(items: seq<Json>)
    ensures |RecodeItems(items)| == |items| && forall i :: i in RecodeItems(items) ==> Plain(i)
    decreases items, 0
  {
    if items != [] {
      RecodedIsPlain(items[0]);
      RecodedItemsArePlain(items[1..]);
    }
  }

  lemma {:induction false} RecodedFieldsArePlain(fields: seq<Field>)
    ensures forall f :: f in RecodeFields(fields) ==> Plain(f.value)
    decreases fields, 0
  {
    if fields != [] {
      RecodedIsPlain(fields[0].value);
      RecodedFieldsArePlain(fields[1..]);
    }
  }
}
