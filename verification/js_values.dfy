/**
 * The JavaScript values a JSON request body can carry, with the two
 * coercions the booking routes apply to them: truthiness (`!x`) and
 * `Number(x)`. Numbers are integers here; `Number` on a string is the
 * restricted decimal reading below.
 */
module JsValues {
  import opened Wrappers
  import opened Text

  /** `Undefined` stands for a field the body does not have; `Obj` for any object or array. */
  datatype JsValue = Undefined | Null | Bool(b: bool) | Num(n: int) | Str(s: string) | Obj

  /** JavaScript truthiness: `undefined`, `null`, `false`, `0` and `""` are falsy. */
  predicate Truthy(v: JsValue)
    ensures !Truthy(v) <==> v == Undefined || v == Null || v == Bool(false) || v == Num(0) || v == Str("")
  {
    match v
    case Undefined => false
    case Null => false
    case Bool(b) => b
    case Num(n) => n != 0
    case Str(s) => s != ""
    case Obj => true
  }

  /**
   * `Number(s)` for a string, `None` standing for NaN: the empty string is 0,
   * otherwise an optional '-' followed by at least one decimal digit.
   */
  function NumberOf(s: string): (r: Option<int>)
    ensures s == "" ==> r == Some(0)
    ensures s != "" && AllDigits(s) ==> r == Some(ValueOf(s))
    ensures s != "" && !AllDigits(s) && s[0] == '-' && AllDigits(s[1..]) && |s| > 1 ==>
      r == Some(-(ValueOf(s[1..]) as int))
    ensures r.None? <==> !(s == "" || AllDigits(s) || (|s| > 1 && s[0] == '-' && AllDigits(s[1..])))
  {
    if s == "" then Some(0)
    else if AllDigits(s) then Some(ValueOf(s))
    else if s[0] == '-' && |s| > 1 && AllDigits(s[1..]) then Some(-(ValueOf(s[1..]) as int))
    else None
  }

  /** The canonical decimal rendering of an integer, as `String(n)` gives it. */
  function ShowInt(n: int): (s: string)
    ensures s != ""
  {
    if n < 0 then "-" + Show(-n) else Show(n)
  }

  /** `Number(String(n)) == n` for every integer. */
  lemma NumberOfShowInt(n: int)
    ensures NumberOf(ShowInt(n)) == Some(n)
  {
    if n < 0 {
      NumberOfNegative(Show(-n));
      ValueOfShow(-n);
    } else {
      ValueOfShow(n);
    }
  }

  /** A minus sign before a digit string negates its value. */
  lemma NumberOfNegative(digits: string)
    requires digits != [] && AllDigits(digits)
    ensures NumberOf("-" + digits) == Some(-(ValueOf(digits) as int))
  {
    var s := "-" + digits;
    assert s[0] == '-' && !IsDigit(s[0]) && !AllDigits(s);
    assert s[1..] == digits;
  }

  /** `Number(v)` for a request-body value, `None` standing for NaN. */
  function ToNumber(v: JsValue): (r: Option<int>)
    ensures v.Num? ==> r == Some(v.n)
    ensures v.Undefined? || v.Obj? ==> r.None?
  {
    match v
    case Undefined => None
    case Null => Some(0)
    case Bool(b) => Some(if b then 1 else 0)
    case Num(n) => Some(n)
    case Str(s) => NumberOf(s)
    case Obj => None
  }
}
