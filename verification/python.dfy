/**
 The fragment of Python's data model that the voicemail-to-email dispatcher
 relies on: the JSON-shaped values found in a payload's attribute map, their
 truthiness (what an `if x:` test decides), the exceptions the dispatcher can
 raise, and the `in` operator on strings.
 */
module Python {

  /** An optional value: `None` stands for a missing dictionary entry or for a
      local name that was never bound. */
  datatype Option<+T> = None | Some(value: T)

  /** A value obtained by decoding JSON: what `json_attributes` maps keys to. */
  datatype Value =
    | Str(s: string)
    | Num(n: real)
    | Bool(b: bool)
    | Null
    | Arr(items: seq<Value>)
    | Obj(fields: map<string, Value>)

  /** The attribute map of a payload, keyed by attribute name. */
  type Attributes = map<string, Value>

  /** Python truthiness: `None`, `False`, zero and empty containers are false,
      everything else is true. */
  predicate Truthy(v: Value)
  {
    match v
    case Str(s) => |s| > 0
    case Num(n) => n != 0.0
    case Bool(b) => b
    case Null => false
    case Arr(items) => |items| > 0
    case Obj(fields) => |fields| > 0
  }

  /** The exception that can escape the dispatcher. */
  datatype Exception = KeyError(key: string)

  /** The outcome of evaluating an expression that may raise. */
  datatype Result<+T> = Ok(value: T) | Raise(error: Exception)

  /** `d[k]` on a dictionary: the entry, or a `KeyError` naming the key. */
  function Subscript(d: Attributes, k: string): Result<Value>
  {
    if k in d then Ok(d[k]) else Raise(KeyError(k))
  }

  /** `needle` occurs in `haystack` starting at index `i`. */
  predicate OccursAt(needle: string, haystack: string, i: int)
  {
    0 <= i && i + |needle| <= |haystack| && haystack[i..i + |needle|] == needle
  }

  /** Moving one character into the haystack shifts every occurrence by one. */
  lemma OccursAtTail(needle: string, haystack: string, i: int)
    requires |haystack| > 0 && 0 <= i
    ensures OccursAt(needle, haystack[1..], i) <==> OccursAt(needle, haystack, i + 1)
  {
  }

  /** Python's `needle in haystack` for two strings: substring containment.
      The empty string occurs in every string. */
  function InStr(needle: string, haystack: string): (r: bool)
    ensures r <==> exists i :: OccursAt(needle, haystack, i)
    decreases |haystack|
  {
    if |haystack| < |needle| then
      assert forall i :: !OccursAt(needle, haystack, i);
      false
    else if haystack[..|needle|] == needle then
      assert OccursAt(needle, haystack, 0);
      true
    else if |haystack| == 0 then
      false
    else
      var rest := InStr(needle, haystack[1..]);
      assert rest ==> exists i :: OccursAt(needle, haystack, i) by {
        if rest {
          var j :| OccursAt(needle, haystack[1..], j);
          OccursAtTail(needle, haystack, j);
        }
      }
      assert (exists i :: OccursAt(needle, haystack, i)) ==> rest by {
        if exists i :: OccursAt(needle, haystack, i) {
          var j :| OccursAt(needle, haystack, j);
          assert j != 0;
          OccursAtTail(needle, haystack, j - 1);
        }
      }
      rest
  }

  /** For a one-character needle, Python's substring test is plain character
      membership: `'@' in s` holds exactly when some character of `s` is `@`. */
  lemma InStrSingleChar(c: char, s: string)
    ensures InStr([c], s) <==> exists k :: 0 <= k < |s| && s[k] == c
  {
    if exists k :: 0 <= k < |s| && s[k] == c {
      var k :| 0 <= k < |s| && s[k] == c;
      assert OccursAt([c], s, k);
    }
    if InStr([c], s) {
      var i :| OccursAt([c], s, i);
      assert s[i] == s[i..i + 1][0];
    }
  }
}
