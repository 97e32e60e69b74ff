/** Value types shared by every view: the JSON records the record store
    returns, the JavaScript string operations the views apply to them, and
    the shape of a reply to the "list all users" request. */
module Records {

  datatype Option<+T> = None | Some(value: T)

  /** A JSON object as the views see it: each present key maps either to the
      string form of its value or to None for null/undefined. */
  type Record = map<string, Option<string>>

  /** `record.key` in JavaScript: a missing key reads as undefined. */
  function Get(r: Record, key: string): (v: Option<string>)
    ensures v.Some? ==> key in r && r[key] == v
    ensures key !in r ==> v == None
  {
    if key in r then r[key] else None
  }

  /** JavaScript truthiness of a string-valued field: null, undefined and "" are falsy. */
  predicate Truthy(v: Option<string>) {
    v.Some? && v.value != ""
  }

  /** `v || ""`: the value itself when truthy, otherwise the empty string. */
  function OrEmpty(v: Option<string>): (s: string)
    ensures Truthy(v) ==> s == v.value
    ensures !Truthy(v) ==> s == ""
  {
    if v.Some? then v.value else ""
  }

  /** `toLowerCase` restricted to ASCII letters. */
  function LowerChar(c: char): (d: char)
    ensures 'A' <= c <= 'Z' ==> 'a' <= d <= 'z'
    ensures !('A' <= c <= 'Z') ==> d == c
  {
    if 'A' <= c <= 'Z' then (c as int - 'A' as int + 'a' as int) as char else c
  }

  function Lower(s: string): (t: string)
    ensures |t| == |s|
    ensures forall i :: 0 <= i < |s| ==> t[i] == LowerChar(s[i])
  {
    seq(|s|, i requires 0 <= i < |s| => LowerChar(s[i]))
  }

  /** `s.includes(t)`: t occurs as a contiguous block of s. */
  predicate Includes(s: string, t: string) {
    exists i | 0 <= i <= |s| :: OccursAt(s, t, i)
  }

  predicate OccursAt(s: string, t: string, i: int) {
    0 <= i <= |s| - |t| && s[i..i + |t|] == t
  }

  /** The characters JavaScript's `\s` and `trim` treat as white space
      (the WhiteSpace and LineTerminator productions of ECMAScript). */
  predicate IsWhitespace(c: char) {
    var n := c as int;
    n == 0x09 || n == 0x0A || n == 0x0B || n == 0x0C || n == 0x0D || n == 0x20 ||
    n == 0xA0 || n == 0x1680 || (0x2000 <= n <= 0x200A) || n == 0x2028 || n == 0x2029 ||
    n == 0x202F || n == 0x205F || n == 0x3000 || n == 0xFEFF
  }

  /** `!s.trim()`: nothing but white space is left once trimmed. */
  predicate Blank(s: string) {
    forall i :: 0 <= i < |s| ==> IsWhitespace(s[i])
  }

  /** The outcome of `fetch(...)` followed by `response.json()` on a list request. */
  datatype FetchReply =
    | Fetched(data: seq<Record>)   // response.ok and a JSON array
    | HttpError                    // !response.ok: the view throws its own message
    | Thrown(message: string)      // the network or JSON decoding threw

}
