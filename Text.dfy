// Character and string helpers shared by the chat fallback of the server
// and the AI assistant screen: ASCII lower-casing, the substring test that
// JavaScript's `includes` performs, and a keyword table searched in order.

module Text {
  import opened Common

  /** One row of a keyword reply table: a keyword and the reply it selects. */
  datatype Entry = Entry(key: string, reply: string)

  function LowerChar(c: char): char {
    if 'A' <= c <= 'Z' then (c as int + 32) as char else c
  }

  /** `toLowerCase`, for the ASCII letters. */
  function ToLower(s: string): (r: string)
    ensures |r| == |s|
    ensures forall i :: 0 <= i < |s| ==> r[i] == LowerChar(s[i])
  {
    if s == [] then [] else [LowerChar(s[0])] + ToLower(s[1..])
  }

  lemma {:induction false} ToLowerIdempotent(s: string)
    ensures ToLower(ToLower(s)) == ToLower(s)
  {
    if s != [] {
      ToLowerIdempotent(s[1..]);
      assert ToLower(s)[1..] == ToLower(s[1..]);
    }
  }

  predicate IsPrefix(key: string, s: string) {
    |key| <= |s| && s[..|key|] == key
  }

  /** `s.includes(key)`: key occurs in s as a contiguous block. */
  predicate Includes(s: string, key: string)
    decreases |s|
  {
    IsPrefix(key, s) || (s != [] && Includes(s[1..], key))
  }

  /** The positions at which key starts inside s. */
  ghost predicate OccursAt(s: string, key: string, i: int) {
    0 <= i && i + |key| <= |s| && s[i..i + |key|] == key
  }

  /** An occurrence at some position makes `includes` hold. */
  lemma {:induction false} OccursIncludes(s: string, key: string, i: int)
    requires OccursAt(s, key, i)
    ensures Includes(s, key)
    decreases i
  {
    if i > 0 {
      assert s[1..][i - 1..i - 1 + |key|] == s[i..i + |key|];
      OccursIncludes(s[1..], key, i - 1);
    }
  }

  /** When `includes` holds, the key occurs at some position. */
  lemma {:induction false} IncludesOccurs(s: string, key: string)
    requires Includes(s, key)
    ensures exists i :: OccursAt(s, key, i)
    decreases |s|
  {
    if IsPrefix(key, s) {
      assert OccursAt(s, key, 0);
    } else {
      IncludesOccurs(s[1..], key);
      var i :| OccursAt(s[1..], key, i);
      assert s[1..][i..i + |key|] == s[i + 1..i + 1 + |key|];
      assert OccursAt(s, key, i + 1);
    }
  }

  /** Includes is exactly "there is a position where key occurs". */
  lemma IncludesIff(s: string, key: string)
    ensures Includes(s, key) <==> exists i :: OccursAt(s, key, i)
  {
    if Includes(s, key) {
      IncludesOccurs(s, key);
    }
    forall i | OccursAt(s, key, i) ensures Includes(s, key) {
      OccursIncludes(s, key, i);
    }
  }

  /** `Object.keys(table).find(key => text.includes(key))`: the index of the
      first entry, in table order, whose key occurs in the text. */
  function FindKey(table: seq<Entry>, text: string): (r: Option<nat>)
    ensures r.Some? ==> r.value < |table| && Includes(text, table[r.value].key)
    ensures r.Some? ==> forall j :: 0 <= j < r.value ==> !Includes(text, table[j].key)
    ensures r.None? <==> forall j :: 0 <= j < |table| ==> !Includes(text, table[j].key)
  {
    if table == [] then None
    else if Includes(text, table[0].key) then Some(0)
    else match FindKey(table[1..], text)
      case None => None
      case Some(k) => Some(k + 1)
  }

  /** The reply of the first matching keyword, or the default reply. */
  function KeywordReply(table: seq<Entry>, default: string, text: string): (r: string)
    ensures (forall j :: 0 <= j < |table| ==> !Includes(text, table[j].key)) ==> r == default
    ensures forall k :: 0 <= k < |table| && Includes(text, table[k].key)
              && (forall j :: 0 <= j < k ==> !Includes(text, table[j].key))
              ==> r == table[k].reply
  {
    match FindKey(table, text)
    case None => default
    case Some(k) => table[k].reply
  }
}
