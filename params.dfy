/**
 * How the article routes read their inputs (app.py:141-206). Query-string
 * arguments go through `request.args.get(key, default, type)`: an absent key
 * gives the default, and so does a converter that raises ValueError. JSON
 * bodies go through `request.get_json()` and `dict.get`, and the value is
 * then used for its Python truthiness.
 */
module Params {
  import opened Wrappers
  import opened Text

  // ---------------------------------------------------------------------------
  // Query-string arguments

  predicate AllDigits(s: string)
  {
    forall i :: 0 <= i < |s| ==> '0' <= s[i] <= '9'
  }

  /** The text after an optional leading sign. */
  function Unsigned(s: string): string
  {
    if s != [] && (s[0] == '-' || s[0] == '+') then s[1..] else s
  }

  /** Integer text: an optional sign, then at least one ASCII digit. */
  predicate IsDigitText(s: string)
  {
    Unsigned(s) != [] && AllDigits(Unsigned(s))
  }

  /** The value of integer text, of any length. */
  function SignedValue(s: string): (v: int)
    requires IsDigitText(s)
    ensures s[0] == '-' ==> v <= 0
    ensures s[0] != '-' ==> v >= 0
  {
    var m: int := ParseNatOf(Unsigned(s));
    if s[0] == '-' then -m else m
  }

  /**
   * CPython's default `sys.int_max_str_digits`: `int()` raises ValueError on
   * decimal text with more digits than this, leading zeros included.
   */
  const MaxIntDigits := 4300

  /** The text `int()` accepts here: integer text of at most `MaxIntDigits` digits. */
  predicate IsIntText(s: string)
  {
    IsDigitText(s) && |Unsigned(s)| <= MaxIntDigits
  }

  /** The number of decimal digits of a whole number, without its sign. */
  function DigitCount(n: int): nat
  {
    |ShowNat(if n < 0 then -n else n)|
  }

  /** `int(s)`, with `None` where it raises ValueError. */
  function IntOf(s: string): (r: Option<int>)
    ensures r.Some? <==> IsIntText(s)
    ensures r.Some? ==> r.value == SignedValue(s)
    ensures r.Some? && s[0] == '-' ==> r.value <= 0
    ensures r.Some? && s[0] != '-' ==> r.value >= 0
  {
    if !IsIntText(s) then None else Some(SignedValue(s))
  }

  /** The value of a string of decimal digits. */
  function ParseNatOf(s: string): (n: nat)
    requires AllDigits(s)
    ensures n == ParseNat(s)
    decreases |s|
  {
    if s == [] then 0 else 10 * ParseNatOf(s[..|s| - 1]) + (s[|s| - 1] as int - '0' as int)
  }

  /** The decimal text of every whole number is integer text with that value, its digits after the sign. */
  lemma SignedValueShow(n: int)
    ensures IsDigitText(Show(n)) && SignedValue(Show(n)) == n
    ensures |Unsigned(Show(n))| == DigitCount(n)
  {
    var m: nat := if n < 0 then -n else n;
    ParseShowNat(m);
    if n < 0 {
      SignedValueNegative(ShowNat(m));
    } else {
      SignedValueDigits(ShowNat(m));
    }
  }

  lemma SignedValueDigits(digits: string)
    requires digits != [] && AllDigits(digits)
    ensures Unsigned(digits) == digits
    ensures IsDigitText(digits) && SignedValue(digits) == ParseNat(digits)
  {
  }

  lemma SignedValueNegative(digits: string)
    requires digits != [] && AllDigits(digits)
    ensures Unsigned("-" + digits) == digits
    ensures IsDigitText("-" + digits) && SignedValue("-" + digits) == -ParseNat(digits)
  {
    var s := "-" + digits;
    assert s[1..] == digits;
  }

  /** `int()` reads back the decimal text of every number of at most `MaxIntDigits` digits, and refuses the others. */
  lemma IntOfShow(n: int)
    ensures DigitCount(n) <= MaxIntDigits ==> IntOf(Show(n)) == Some(n)
    ensures DigitCount(n) > MaxIntDigits ==> IntOf(Show(n)) == None
  {
    SignedValueShow(n);
  }

  /** `type=int` on an absent key or on a text `int()` refuses gives the default. */
  function IntArg(arg: Option<string>, default: Option<int>): (r: Option<int>)
    ensures arg.Some? && IsIntText(arg.value) ==> r.Some? && r == IntOf(arg.value)
    ensures arg.None? || !IsIntText(arg.value) ==> r == default
  {
    if arg.Some? && IsIntText(arg.value) then IntOf(arg.value) else default
  }

  /**
   * A number's own text is read as that number when `int()` takes it, and is
   * the default beyond `MaxIntDigits` digits; an absent argument is the default.
   */
  lemma IntArgShow(n: int, default: Option<int>)
    ensures DigitCount(n) <= MaxIntDigits ==> IntArg(Some(Show(n)), default) == Some(n)
    ensures DigitCount(n) > MaxIntDigits ==> IntArg(Some(Show(n)), default) == default
    ensures IntArg(None, default) == default
  {
    IntOfShow(n);
  }

  /**
   * `type=lambda x: x.lower() == 'true' if x else None`: an absent or empty
   * argument is no filter, and otherwise only a case-insensitive `true` means
   * True. No character outside ASCII lowercases to a letter of `true`, so
   * folding ASCII capitals decides the comparison.
   */
  function FlagArg(arg: Option<string>): (r: Option<bool>)
    ensures r.None? <==> arg.None? || arg.value == ""
    ensures r == Some(true) <==> arg.Some? && Fold(arg.value) == "true"
  {
    if arg.None? || arg.value == "" then None else Some(Fold(arg.value) == "true")
  }

  /** Only the word `true` turns a flag filter on: `1`, `yes` and `on` filter for False. */
  lemma FlagArgReadsOnlyTrue()
    ensures FlagArg(Some("TRUE")) == Some(true) && FlagArg(Some("True")) == Some(true)
    ensures FlagArg(Some("1")) == Some(false) && FlagArg(Some("yes")) == Some(false)
    ensures FlagArg(Some("")) == None
  {
    assert Fold("TRUE") == "true";
    assert Fold("True") == "true";
    assert Fold("1")[0] == '1';
    assert Fold("yes")[0] == 'y';
  }

  // ---------------------------------------------------------------------------
  // Parameter binding

  /**
   * The integers `sqlite3` binds as SQL parameters: those of a signed 64-bit
   * INTEGER. Binding any other Python int raises OverflowError, which the
   * routes answer with 500.
   */
  predicate Bindable(n: int)
  {
    -0x8000_0000_0000_0000 <= n < 0x8000_0000_0000_0000
  }

  // ---------------------------------------------------------------------------
  // JSON bodies

  /** A JSON value as `request.get_json()` decodes it; numbers are whole. */
  datatype Json =
    | JNull
    | JBool(b: bool)
    | JNum(n: int)
    | JStr(s: string)
    | JArray(items: seq<Json>)
    | JObject(fields: map<string, Json>)

  /** Python truthiness of the decoded value. */
  predicate JsonTruthy(v: Json)
  {
    match v
    case JNull => false
    case JBool(b) => b
    case JNum(n) => n != 0
    case JStr(s) => s != ""
    case JArray(items) => items != []
    case JObject(fields) => fields != map[]
  }

  /**
   * `request.get_json().get(key, True)`, stored as `1 if value else 0`. The
   * body is `None` when the request carries no decodable JSON; `.get` then
   * raises, as it does on any JSON value that is not an object, and the route
   * answers 500: that is the result `None`.
   */
  function FlagField(body: Option<Json>, key: string): (r: Option<bool>)
    ensures r.None? <==> body.None? || !body.value.JObject?
    ensures r == Some(false) <==>
      body.Some? && body.value.JObject? && key in body.value.fields && !JsonTruthy(body.value.fields[key])
  {
    if body.None? || !body.value.JObject? then None
    else if key in body.value.fields then Some(JsonTruthy(body.value.fields[key]))
    else Some(true)
  }

  /** An object without the key sets the flag, and so does the string "false", which is truthy. */
  lemma FlagFieldDefaults(key: string)
    ensures FlagField(Some(JObject(map[])), key) == Some(true)
    ensures FlagField(Some(JObject(map[key := JStr("false")])), key) == Some(true)
    ensures FlagField(Some(JObject(map[key := JNum(0)])), key) == Some(false)
    ensures FlagField(Some(JArray([])), key) == None
  {
  }

  /** What `Article.mark_all_read` is asked to do. */
  datatype MarkAllTarget =
    | AllFeeds            // a falsy `feed_id`: every article
    | OneFeed(id: int)    // `WHERE feed_id = ?` with a 64-bit integer
    | NoFeed              // a text `feed_id` SQLite cannot read as a 64-bit integer: no row matches
    | BindError           // a list, an object or a number beyond 64 bits: sqlite3 cannot bind it, 500

  /**
   * `(request.get_json() or {}).get('feed_id')` as `mark_all_read` uses it:
   * a falsy body reads as `{}`; a body that does not decode, or a truthy one
   * that is not an object, makes the route raise (`None`, answered 500); a
   * falsy `feed_id` marks every article; True binds as 1; a number binds when
   * it fits in 64 bits; a text compares with the INTEGER column after SQLite's
   * numeric conversion, which turns integer text beyond 64 bits into a REAL
   * that equals no stored id.
   */
  function MarkAllTargetOf(body: Option<Json>): (r: Option<MarkAllTarget>)
    ensures r.None? <==> body.None? || (JsonTruthy(body.value) && !body.value.JObject?)
    ensures r == Some(AllFeeds) <==>
      (body.Some? && (!JsonTruthy(body.value) ||
        (body.value.JObject? && ("feed_id" !in body.value.fields || !JsonTruthy(body.value.fields["feed_id"])))))
    ensures r == Some(BindError) <==>
      (body.Some? && body.value.JObject? && "feed_id" in body.value.fields && JsonTruthy(body.value.fields["feed_id"]) &&
        (body.value.fields["feed_id"].JArray? || body.value.fields["feed_id"].JObject? ||
         (body.value.fields["feed_id"].JNum? && !Bindable(body.value.fields["feed_id"].n))))
    ensures forall n :: r == Some(OneFeed(n)) ==> n != 0 && Bindable(n)
  {
    if body.None? then None
    else if !JsonTruthy(body.value) then Some(AllFeeds)
    else if !body.value.JObject? then None
    else if "feed_id" !in body.value.fields then Some(AllFeeds)
    else
      var v := body.value.fields["feed_id"];
      if !JsonTruthy(v) then Some(AllFeeds)
      else match v
        case JBool(_) => Some(OneFeed(1))
        case JNum(n) => if Bindable(n) then Some(OneFeed(n)) else Some(BindError)
        case JStr(s) =>
          if IsDigitText(s) && SignedValue(s) != 0 && Bindable(SignedValue(s)) then Some(OneFeed(SignedValue(s)))
          else Some(NoFeed)
        case _ => Some(BindError)
  }

  /** The feed id reaches the UPDATE whether it comes as a number or as its decimal text. */
  lemma MarkAllTextOrNumber(n: int)
    requires n != 0 && Bindable(n)
    ensures MarkAllTargetOf(Some(JObject(map["feed_id" := JNum(n)]))) == Some(OneFeed(n))
    ensures MarkAllTargetOf(Some(JObject(map["feed_id" := JStr(Show(n))]))) == Some(OneFeed(n))
  {
    SignedValueShow(n);
  }

  /** Beyond 64 bits the two differ: the number cannot be bound (500), the text matches no feed. */
  lemma MarkAllBeyond64(n: int)
    requires !Bindable(n)
    ensures MarkAllTargetOf(Some(JObject(map["feed_id" := JNum(n)]))) == Some(BindError)
    ensures MarkAllTargetOf(Some(JObject(map["feed_id" := JStr(Show(n))]))) == Some(NoFeed)
  {
    SignedValueShow(n);
  }
}
