/**
 * Data as the core receives it: a decoded JSON document, in the shape Python's
 * json module produces (dict, list, str, number, bool, None), and the
 * exceptions the core can raise while handling such data.
 */
module Values {
  import opened Wrappers

  /**
   * A JSON value. An `Object` is a Python dict: its fields in insertion order
   * (the order of the document), each key once, as `json.loads` builds it.
   * Numbers are exact reals; Python's int and float are not told apart.
   */
  datatype Value =
    | Null
    | Bool(b: bool)
    | Num(n: real)
    | Str(s: string)
    | Array(elems: seq<Value>)
    | Object(fields: seq<(string, Value)>)

  /** The exceptions the modelled code raises or catches. */
  datatype Exception =
    | AttributeError      // a method called on a value that lacks it, e.g. `.get` on a list
    | TypeError           // an operation applied to a value of the wrong type
    | ValueError          // a conversion of a malformed string
    | ZeroDivisionError
    | TimeoutError        // asyncio.TimeoutError
    | TransportError      // anything else the browser transport raises

  predicate HasKey(fields: seq<(string, Value)>, key: string) {
    exists i :: 0 <= i < |fields| && fields[i].0 == key
  }

  /** `key in d` followed by `d[key]`: the value stored under `key`, if any. */
  function Get(fields: seq<(string, Value)>, key: string): (r: Option<Value>)
    ensures r.Some? <==> HasKey(fields, key)
    ensures r.Some? ==> (key, r.value) in fields
  {
    if |fields| == 0 then None
    else if fields[0].0 == key then Some(fields[0].1)
    else
      var r := Get(fields[1..], key);
      assert forall i :: 0 < i < |fields| ==> fields[i] == fields[1..][i - 1];
      r
  }

  /** `d.get(key, default)` on a dict. */
  function GetOr(fields: seq<(string, Value)>, key: string, default: Value): (r: Value)
    ensures HasKey(fields, key) ==> (key, r) in fields
    ensures !HasKey(fields, key) ==> r == default
  {
    Get(fields, key).GetOr(default)
  }

  /** The keys of a dict in iteration order, each as a str. */
  function Keys(fields: seq<(string, Value)>): (r: seq<Value>)
    ensures |r| == |fields|
    ensures forall i :: 0 <= i < |r| ==> r[i] == Str(fields[i].0)
  {
    if |fields| == 0 then [] else [Str(fields[0].0)] + Keys(fields[1..])
  }

  /** The one-character strings of a str, as iterating over it yields them. */
  function Chars(s: string): (r: seq<Value>)
    ensures |r| == |s|
    ensures forall i :: 0 <= i < |r| ==> r[i] == Str([s[i]])
  {
    if |s| == 0 then [] else [Str([s[0]])] + Chars(s[1..])
  }

  /**
   * What `for x in v` visits: the elements of a list, the keys of a dict,
   * the characters of a str. None, numbers and booleans are not iterable
   * and raise TypeError, shown here as `None`.
   */
  function Iterate(v: Value): (r: Option<seq<Value>>)
    ensures r.None? <==> v.Null? || v.Bool? || v.Num?
    ensures v.Array? ==> r == Some(v.elems)
  {
    match v
    case Array(elems) => Some(elems)
    case Object(fields) => Some(Keys(fields))
    case Str(s) => Some(Chars(s))
    case _ => None
  }

  /** Values Python can hash, and so store in a set; lists and dicts cannot. */
  predicate Hashable(v: Value) {
    !v.Array? && !v.Object?
  }

  /** `pattern in text` for strings: `pattern` occurs somewhere in `text`. */
  predicate IsSubstring(pattern: string, text: string)
    ensures pattern <= text ==> IsSubstring(pattern, text)
    ensures IsSubstring(pattern, text) ==> |pattern| <= |text|
    ensures IsSubstring(pattern, text) && |pattern| == |text| ==> pattern == text
    decreases |text|
  {
    pattern <= text || (|text| > 0 && IsSubstring(pattern, text[1..]))
  }

  /** The pattern occurs in the text starting at offset `i`. */
  predicate OccursAt(pattern: string, text: string, i: int) {
    0 <= i <= |text| - |pattern| && text[i..i + |pattern|] == pattern
  }

  /** `pattern in text` holds exactly when the pattern occurs at some offset of the text. */
  lemma {:induction false} SubstringOccurs(pattern: string, text: string)
    ensures IsSubstring(pattern, text) <==> exists i :: OccursAt(pattern, text, i)
    decreases |text|
  {
    if pattern <= text {
      assert OccursAt(pattern, text, 0);
    } else if |text| > 0 {
      SubstringOccurs(pattern, text[1..]);
      if IsSubstring(pattern, text[1..]) {
        var i :| OccursAt(pattern, text[1..], i);
        assert text[1..][i..i + |pattern|] == text[i + 1..i + 1 + |pattern|];
        assert OccursAt(pattern, text, i + 1);
      }
      if exists i :: OccursAt(pattern, text, i) {
        var i :| OccursAt(pattern, text, i);
        assert text[1..][i - 1..i - 1 + |pattern|] == text[i..i + |pattern|];
        assert OccursAt(pattern, text[1..], i - 1);
      }
    }
  }
}
