/**
 * The two request validators of the backend. Each one decides, before any
 * provider call, whether a request goes on to its route handler (`Next`), is
 * answered with a 400 and a fixed error pair (`Reject`), or throws (`Thrown`),
 * which Express hands to the error-handling middleware.
 */
module ServerValidation {
  import opened Wrappers
  import opened JsValues

  /** The `{ error, message }` pair of a 400 answer. */
  datatype ValidationError = ValidationError(error: string, message: string)

  datatype Verdict = Next | Reject(failure: ValidationError) | Thrown(exception: JsError)

  const InvalidAmount := ValidationError("Invalid amount", "Amount must be a positive number between 0.01 and 10,000.00")
  const InvalidItemData := ValidationError("Invalid item data", "Each item must have id, name, quantity, and unit_amount")
  const InvalidItemValues := ValidationError("Invalid item values", "Quantity and unit_amount must be positive numbers")
  const MissingFields := ValidationError("Missing required fields", "checkoutSession and oneTimeToken are required")
  const InvalidSessionFormat := ValidationError("Invalid checkout session format", "Checkout session must be a valid UUID v4")
  const InvalidPaymentAmount := ValidationError("Invalid amount", "Amount must be a positive number")

  /** The largest amount a checkout session may ask for. */
  const MaxAmount: real := 1000000.0

  /** `amount && (typeof amount !== 'number' || amount <= 0 || amount > 1000000)`. */
  predicate BadSessionAmount(amount: JsValue) {
    Truthy(amount) && (!amount.Num? || amount.x <= 0.0 || amount.x > MaxAmount)
  }

  /** The checks of one element of `items`, in the order the validator makes them. */
  function ItemCheck(rt: Runtime, item: JsValue): (v: Verdict)
    ensures v.Thrown? <==> Nullish(item)
    ensures v == Reject(InvalidItemData) <==>
      !Nullish(item) && !(Truthy(Field(item, "id")) && Truthy(Field(item, "name"))
                          && Truthy(Field(item, "quantity")) && Truthy(Field(item, "unit_amount")))
    ensures v == Reject(InvalidItemValues) <==>
      !Nullish(item) && Truthy(Field(item, "id")) && Truthy(Field(item, "name"))
      && Truthy(Field(item, "quantity")) && Truthy(Field(item, "unit_amount"))
      && (AtMostZero(rt, Field(item, "quantity")) || AtMostZero(rt, Field(item, "unit_amount")))
    ensures v.Thrown? || v == Reject(InvalidItemData) || v == Reject(InvalidItemValues) || v.Next?
    ensures v.Next? ==> item.Obj?
  {
    if Nullish(item) then Thrown(ReadOfNullish(item, "id"))
    else if !Truthy(Field(item, "id")) || !Truthy(Field(item, "name"))
         || !Truthy(Field(item, "quantity")) || !Truthy(Field(item, "unit_amount"))
    then Reject(InvalidItemData)
    else if AtMostZero(rt, Field(item, "quantity")) || AtMostZero(rt, Field(item, "unit_amount"))
    then Reject(InvalidItemValues)
    else Next
  }

  /**
   * The comparisons `<= 0` are false for a value that converts to NaN, so a
   * present but non-numeric quantity passes the item check.
   */
  lemma NonNumericQuantityPasses(rt: Runtime, item: JsValue)
    requires item.Obj? && Truthy(Field(item, "id")) && Truthy(Field(item, "name"))
    requires Truthy(Field(item, "quantity")) && ToNumber(rt, Field(item, "quantity")).None?
    requires Truthy(Field(item, "unit_amount")) && !AtMostZero(rt, Field(item, "unit_amount"))
    ensures ItemCheck(rt, item) == Next
  {
  }

  /** The loop over `items` from index `i` on: the first element that does not pass decides. */
  function ItemsVerdict(rt: Runtime, items: seq<JsValue>, i: nat): Verdict
    requires i <= |items|
    decreases |items| - i
  {
    if i == |items| then Next
    else
      var v := ItemCheck(rt, items[i]);
      if v.Next? then ItemsVerdict(rt, items, i + 1) else v
  }

  /** validateCheckoutSession on a parsed body (never null or undefined: the JSON parser yields an object or array, or `{}`). */
  function CheckoutSessionVerdict(rt: Runtime, body: JsValue): Verdict
    requires !Nullish(body)
  {
    var amount := Field(body, "amount");
    var items := Field(body, "items");
    if BadSessionAmount(amount) then Reject(InvalidAmount)
    else if Truthy(items) && items.Arr? then ItemsVerdict(rt, items.elems, 0)
    else Next
  }

  /** The same validator with its loop over the items. */
  method ValidateCheckoutSession(rt: Runtime, body: JsValue) returns (v: Verdict)
    requires !Nullish(body)
    ensures v == CheckoutSessionVerdict(rt, body)
  {
    var amount := Field(body, "amount");
    var items := Field(body, "items");
    if BadSessionAmount(amount) {
      return Reject(InvalidAmount);
    }
    if Truthy(items) && items.Arr? {
      var i := 0;
      while i < |items.elems|
        invariant 0 <= i <= |items.elems|
        invariant ItemsVerdict(rt, items.elems, i) == ItemsVerdict(rt, items.elems, 0)
      {
        var check := ItemCheck(rt, items.elems[i]);
        if !check.Next? {
          return check;
        }
        i := i + 1;
      }
    }
    return Next;
  }

  // ---------------------------------------------------------------------------
  // The UUID test of validatePayment: a regular expression made of fixed-count
  // character classes, anchored at both ends and matched case-insensitively.

  datatype CharClass = HexDigit | VariantDigit | Exactly(c: char)

  /** One piece of the pattern: a class repeated exactly `count` times. */
  datatype Piece = Piece(cls: CharClass, count: nat)

  /** `^[0-9a-f]{8}-[0-9a-f]{4}-4[0-9a-f]{3}-[89ab][0-9a-f]{3}-[0-9a-f]{12}$` */
  const UuidV4Pattern: seq<Piece> := [
    Piece(HexDigit, 8), Piece(Exactly('-'), 1),
    Piece(HexDigit, 4), Piece(Exactly('-'), 1),
    Piece(Exactly('4'), 1), Piece(HexDigit, 3), Piece(Exactly('-'), 1),
    Piece(VariantDigit, 1), Piece(HexDigit, 3), Piece(Exactly('-'), 1),
    Piece(HexDigit, 12)]

  /** The characters written in a class. */
  predicate Listed(cls: CharClass, c: char) {
    match cls
    case HexDigit => '0' <= c <= '9' || 'a' <= c <= 'f'
    case VariantDigit => c == '8' || c == '9' || c == 'a' || c == 'b'
    case Exactly(d) => c == d
  }

  /**
   * The canonical form the `i` flag compares (without the `u` flag): the upper
   * case of an ASCII letter. No character outside ASCII canonicalises into ASCII,
   * so every other character stands for itself.
   */
  function Canonical(c: char): char {
    if 'a' <= c <= 'z' then (c as int - 'a' as int + 'A' as int) as char else c
  }

  /** A class accepts a character when some listed character has the same canonical form. */
  predicate Accepts(cls: CharClass, c: char) {
    match cls
    case HexDigit => exists d :: '0' <= d <= 'f' && Listed(cls, d) && Canonical(d) == Canonical(c)
    case VariantDigit => exists d :: '0' <= d <= 'f' && Listed(cls, d) && Canonical(d) == Canonical(c)
    case Exactly(e) => Canonical(e) == Canonical(c)
  }

  /** The pieces match `s` from index `pos` to its end. */
  predicate MatchFrom(pieces: seq<Piece>, s: string, pos: nat)
    decreases |pieces|
  {
    if |pieces| == 0 then pos == |s|
    else
      var p := pieces[0];
      pos + p.count <= |s|
      && (forall k :: pos <= k < pos + p.count ==> Accepts(p.cls, s[k]))
      && MatchFrom(pieces[1..], s, pos + p.count)
  }

  /** `uuidRegex.test(s)`. */
  predicate UuidTest(s: string) {
    MatchFrom(UuidV4Pattern, s, 0)
  }

  predicate IsHex(c: char) {
    '0' <= c <= '9' || 'a' <= c <= 'f' || 'A' <= c <= 'F'
  }

  /**
   * The shape of a version-4 UUID, stated by position: 36 characters, dashes
   * at 8, 13, 18 and 23, the version digit '4' at 14, one of 8, 9, a, b (either
   * case) at 19, and hexadecimal digits of either case elsewhere.
   */
  predicate UuidV4Shape(s: string) {
    |s| == 36
    && s[8] == '-' && s[13] == '-' && s[18] == '-' && s[23] == '-'
    && s[14] == '4'
    && s[19] in "89abAB"
    && forall k :: 0 <= k < 36 && k != 8 && k != 13 && k != 14 && k != 18 && k != 19 && k != 23 ==> IsHex(s[k])
  }

  /** Case-insensitive hex classes accept exactly the hexadecimal digits of either case. */
  lemma HexAccepts(c: char)
    ensures Accepts(HexDigit, c) <==> IsHex(c)
  {
    if IsHex(c) {
      var d := if 'A' <= c <= 'F' then (c as int - 'A' as int + 'a' as int) as char else c;
      assert Listed(HexDigit, d) && Canonical(d) == Canonical(c);
    }
  }

  lemma VariantAccepts(c: char)
    ensures Accepts(VariantDigit, c) <==> c in "89abAB"
  {
    if c == 'A' {
      assert Listed(VariantDigit, 'a') && Canonical('a') == Canonical(c);
    } else if c == 'B' {
      assert Listed(VariantDigit, 'b') && Canonical('b') == Canonical(c);
    } else if c in "89ab" {
      assert Listed(VariantDigit, c) && Canonical(c) == Canonical(c);
    }
  }

  /** An `Exactly` piece of a digit or a dash accepts only that character. */
  lemma ExactAccepts(e: char, c: char)
    requires e == '-' || e == '4'
    ensures Accepts(Exactly(e), c) <==> c == e
  {
  }

  /** Unfolding the matcher at piece `i` of the UUID pattern. */
  lemma PieceStep(i: nat, s: string, pos: nat)
    requires i < |UuidV4Pattern|
    ensures var p := UuidV4Pattern[i];
      MatchFrom(UuidV4Pattern[i..], s, pos) <==>
        pos + p.count <= |s|
        && (forall k :: pos <= k < pos + p.count ==> Accepts(p.cls, s[k]))
        && MatchFrom(UuidV4Pattern[i + 1..], s, pos + p.count)
  {
    assert UuidV4Pattern[i..][0] == UuidV4Pattern[i];
    assert UuidV4Pattern[i..][1..] == UuidV4Pattern[i + 1..];
  }

  predicate HexRun(s: string, lo: nat, hi: nat)
    requires lo <= hi <= |s|
  {
    forall k :: lo <= k < hi ==> IsHex(s[k])
  }

  /** The shape as the pattern lists it: runs of hex digits between the fixed characters. */
  predicate UuidRuns(s: string) {
    |s| == 36
    && HexRun(s, 0, 8) && s[8] == '-' && HexRun(s, 9, 13) && s[13] == '-'
    && s[14] == '4' && HexRun(s, 15, 18) && s[18] == '-'
    && s[19] in "89abAB" && HexRun(s, 20, 23) && s[23] == '-' && HexRun(s, 24, 36)
  }

  lemma HexPiece(i: nat, s: string, pos: nat)
    requires i < |UuidV4Pattern| && UuidV4Pattern[i].cls == HexDigit
    ensures var n := UuidV4Pattern[i].count;
      MatchFrom(UuidV4Pattern[i..], s, pos) <==>
        pos + n <= |s| && HexRun(s, pos, pos + n) && MatchFrom(UuidV4Pattern[i + 1..], s, pos + n)
  {
    PieceStep(i, s, pos);
    forall c: char ensures Accepts(HexDigit, c) <==> IsHex(c) {
      HexAccepts(c);
    }
  }

  lemma CharPiece(i: nat, s: string, pos: nat)
    requires i < |UuidV4Pattern| && UuidV4Pattern[i].count == 1
    requires UuidV4Pattern[i].cls in {Exactly('-'), Exactly('4'), VariantDigit}
    ensures var cls := UuidV4Pattern[i].cls;
      MatchFrom(UuidV4Pattern[i..], s, pos) <==>
        pos < |s|
        && (if cls == VariantDigit then s[pos] in "89abAB" else s[pos] == cls.c)
        && MatchFrom(UuidV4Pattern[i + 1..], s, pos + 1)
  {
    PieceStep(i, s, pos);
    if pos < |s| {
      VariantAccepts(s[pos]);
    }
  }

  lemma UuidSuffix10(s: string)
    ensures MatchFrom(UuidV4Pattern[10..], s, 24) <==> |s| == 36 && HexRun(s, 24, 36)
  {
    HexPiece(10, s, 24);
    assert UuidV4Pattern[11..] == [];
  }

  lemma UuidSuffix9(s: string)
    ensures MatchFrom(UuidV4Pattern[9..], s, 23) <==> |s| == 36 && s[23] == '-' && HexRun(s, 24, 36)
  {
    CharPiece(9, s, 23);
    UuidSuffix10(s);
  }

  lemma UuidSuffix8(s: string)
    ensures MatchFrom(UuidV4Pattern[8..], s, 20) <==> |s| == 36 && HexRun(s, 20, 23) && s[23] == '-' && HexRun(s, 24, 36)
  {
    HexPiece(8, s, 20);
    UuidSuffix9(s);
  }

  lemma UuidSuffix7(s: string)
    ensures MatchFrom(UuidV4Pattern[7..], s, 19) <==> |s| == 36 && s[19] in "89abAB" && HexRun(s, 20, 23) && s[23] == '-' && HexRun(s, 24, 36)
  {
    CharPiece(7, s, 19);
    UuidSuffix8(s);
  }

  lemma UuidSuffix6(s: string)
    ensures MatchFrom(UuidV4Pattern[6..], s, 18) <==> |s| == 36 && s[18] == '-' && s[19] in "89abAB" && HexRun(s, 20, 23) && s[23] == '-' && HexRun(s, 24, 36)
  {
    CharPiece(6, s, 18);
    UuidSuffix7(s);
  }

  lemma UuidSuffix5(s: string)
    ensures MatchFrom(UuidV4Pattern[5..], s, 15) <==> |s| == 36 && HexRun(s, 15, 18) && s[18] == '-' && s[19] in "89abAB" && HexRun(s, 20, 23) && s[23] == '-' && HexRun(s, 24, 36)
  {
    HexPiece(5, s, 15);
    UuidSuffix6(s);
  }

  lemma UuidSuffix4(s: string)
    ensures MatchFrom(UuidV4Pattern[4..], s, 14) <==> |s| == 36 && s[14] == '4' && HexRun(s, 15, 18) && s[18] == '-' && s[19] in "89abAB" && HexRun(s, 20, 23) && s[23] == '-' && HexRun(s, 24, 36)
  {
    CharPiece(4, s, 14);
    UuidSuffix5(s);
  }

  lemma UuidSuffix3(s: string)
    ensures MatchFrom(UuidV4Pattern[3..], s, 13) <==> |s| == 36 && s[13] == '-' && s[14] == '4' && HexRun(s, 15, 18) && s[18] == '-' && s[19] in "89abAB" && HexRun(s, 20, 23) && s[23] == '-' && HexRun(s, 24, 36)
  {
    CharPiece(3, s, 13);
    UuidSuffix4(s);
  }

  lemma UuidSuffix2(s: string)
    ensures MatchFrom(UuidV4Pattern[2..], s, 9) <==> |s| == 36 && HexRun(s, 9, 13) && s[13] == '-' && s[14] == '4' && HexRun(s, 15, 18) && s[18] == '-' && s[19] in "89abAB" && HexRun(s, 20, 23) && s[23] == '-' && HexRun(s, 24, 36)
  {
    HexPiece(2, s, 9);
    UuidSuffix3(s);
  }

  lemma UuidSuffix1(s: string)
    ensures MatchFrom(UuidV4Pattern[1..], s, 8) <==> |s| == 36 && s[8] == '-' && HexRun(s, 9, 13) && s[13] == '-' && s[14] == '4' && HexRun(s, 15, 18) && s[18] == '-' && s[19] in "89abAB" && HexRun(s, 20, 23) && s[23] == '-' && HexRun(s, 24, 36)
  {
    CharPiece(1, s, 8);
    UuidSuffix2(s);
  }

  lemma UuidSuffix0(s: string)
    ensures MatchFrom(UuidV4Pattern[0..], s, 0) <==> |s| == 36 && HexRun(s, 0, 8) && s[8] == '-' && HexRun(s, 9, 13) && s[13] == '-' && s[14] == '4' && HexRun(s, 15, 18) && s[18] == '-' && s[19] in "89abAB" && HexRun(s, 20, 23) && s[23] == '-' && HexRun(s, 24, 36)
  {
    HexPiece(0, s, 0);
    UuidSuffix1(s);
  }

  lemma UuidTestRuns(s: string)
    ensures UuidTest(s) <==> UuidRuns(s)
  {
    UuidSuffix0(s);
    assert UuidV4Pattern[0..] == UuidV4Pattern;
  }

  lemma RunsShape(s: string)
    ensures UuidRuns(s) <==> UuidV4Shape(s)
  {
  }

  /** The regular expression accepts a string iff the string has the positional UUID-v4 shape. */
  lemma UuidTestIff(s: string)
    ensures UuidTest(s) <==> UuidV4Shape(s)
  {
    UuidTestRuns(s);
    RunsShape(s);
  }

  /** validatePayment: the required fields first, then the UUID test on the session's text, then the amount. */
  function PaymentVerdict(rt: Runtime, body: JsValue): Verdict
    requires !Nullish(body)
  {
    var session := Field(body, "checkoutSession");
    var token := Field(body, "oneTimeToken");
    var amount := Field(body, "amount");
    if !Truthy(session) || !Truthy(token) then Reject(MissingFields)
    else if !UuidTest(ToText(rt, session)) then Reject(InvalidSessionFormat)
    else if Truthy(amount) && (!amount.Num? || amount.x <= 0.0) then Reject(InvalidPaymentAmount)
    else Next
  }

  // ---------------------------------------------------------------------------
  // What the validators promise.

  /** A falsy amount (absent, null, 0, "") is never checked; a truthy one is rejected unless it is a number in (0, 1000000]. */
  lemma SessionAmountRule(rt: Runtime, body: JsValue)
    requires !Nullish(body)
    ensures CheckoutSessionVerdict(rt, body) == Reject(InvalidAmount) <==>
      (var a := Field(body, "amount"); Truthy(a) && !(a.Num? && 0.0 < a.x <= MaxAmount))
  {
    var items := Field(body, "items");
    if Truthy(items) && items.Arr? && !BadSessionAmount(Field(body, "amount")) {
      ItemsNeverInvalidAmount(rt, items.elems, 0);
    }
  }

  lemma {:induction false} ItemsNeverInvalidAmount(rt: Runtime, items: seq<JsValue>, i: nat)
    requires i <= |items|
    ensures ItemsVerdict(rt, items, i) != Reject(InvalidAmount)
    decreases |items| - i
  {
    if i < |items| && ItemCheck(rt, items[i]).Next? {
      ItemsNeverInvalidAmount(rt, items, i + 1);
    }
  }

  /** The item loop passes iff every item from `i` on passes. */
  lemma {:induction false} ItemsPassIff(rt: Runtime, items: seq<JsValue>, i: nat)
    requires i <= |items|
    ensures ItemsVerdict(rt, items, i).Next? <==> forall j :: i <= j < |items| ==> ItemCheck(rt, items[j]).Next?
    decreases |items| - i
  {
    if i < |items| {
      ItemsPassIff(rt, items, i + 1);
    }
  }

  /** When the item loop stops, it is at the first failing item, and that item's verdict is the loop's. */
  lemma {:induction false} ItemsFirstFailure(rt: Runtime, items: seq<JsValue>, i: nat) returns (k: nat)
    requires i <= |items|
    requires !ItemsVerdict(rt, items, i).Next?
    ensures i <= k < |items|
    ensures ItemsVerdict(rt, items, i) == ItemCheck(rt, items[k])
    ensures forall j :: i <= j < k ==> ItemCheck(rt, items[j]).Next?
    decreases |items| - i
  {
    if ItemCheck(rt, items[i]).Next? {
      k := ItemsFirstFailure(rt, items, i + 1);
    } else {
      k := i;
    }
  }

  /** A request the session validator lets through has a sound amount and only well-formed items. */
  lemma AcceptedSessionBody(rt: Runtime, body: JsValue)
    requires !Nullish(body)
    requires CheckoutSessionVerdict(rt, body).Next?
    ensures var a := Field(body, "amount"); !Truthy(a) || (a.Num? && 0.0 < a.x <= MaxAmount)
    ensures var items := Field(body, "items");
      items.Arr? ==> forall j :: 0 <= j < |items.elems| ==> ItemCheck(rt, items.elems[j]).Next?
  {
    var items := Field(body, "items");
    if items.Arr? {
      ItemsPassIff(rt, items.elems, 0);
    }
  }

  /** The order of validatePayment's checks: a missing field hides every later check. */
  lemma PaymentCheckOrder(rt: Runtime, body: JsValue)
    requires !Nullish(body)
    ensures var v := PaymentVerdict(rt, body);
      var session := Field(body, "checkoutSession");
      var token := Field(body, "oneTimeToken");
      var amount := Field(body, "amount");
      && (v == Reject(MissingFields) <==> !Truthy(session) || !Truthy(token))
      && (v == Reject(InvalidSessionFormat) <==>
            Truthy(session) && Truthy(token) && !UuidV4Shape(ToText(rt, session)))
      && (v == Reject(InvalidPaymentAmount) <==>
            Truthy(session) && Truthy(token) && UuidV4Shape(ToText(rt, session))
            && Truthy(amount) && !(amount.Num? && amount.x > 0.0))
      && (v.Next? <==>
            Truthy(session) && Truthy(token) && UuidV4Shape(ToText(rt, session))
            && (!Truthy(amount) || (amount.Num? && amount.x > 0.0)))
      && !v.Thrown?
  {
    var session := Field(body, "checkoutSession");
    UuidTestIff(ToText(rt, session));
    if Truthy(session) && Truthy(Field(body, "oneTimeToken")) {
      assert UuidTest(ToText(rt, session)) == UuidV4Shape(ToText(rt, session));
    }
  }
}
