/**
 Text helpers shared by every stage of the diagnosis pipeline: Python's
 substring test `sub in s`, "some keyword of a table occurs", the
 keyword-presence count used by the classifier and the severity rater, and
 the duplicate removal that `list(set(...))` performs.
 */
module Text {

  /** Python's `sub in s` on strings: `sub` occurs at some position of `s`. */
  predicate Contains(s: string, sub: string) {
    exists i | 0 <= i <= |s| - |sub| :: sub <= s[i..]
  }

  /** A witness position establishes `Contains`. */
  lemma ContainsAt(s: string, sub: string, i: nat)
    requires i + |sub| <= |s| && sub <= s[i..]
    ensures Contains(s, sub)
  {
  }

  /** A keyword with a character from a set that `s` avoids does not occur in `s`. */
  lemma AbsentCharRulesOut(s: string, chars: set<char>, sub: string, j: nat)
    requires forall i | 0 <= i < |s| :: s[i] !in chars
    requires j < |sub| && sub[j] in chars
    ensures !Contains(s, sub)
  {
    forall i | 0 <= i <= |s| - |sub| ensures !(sub <= s[i..]) {
      assert s[i..][j] != sub[j];
    }
  }

  /** `any(k in s for k in keys)`: some keyword of the table occurs in `s`. */
  predicate ContainsAny(s: string, keys: seq<string>) {
    exists k :: k in keys && Contains(s, k)
  }

  /** No element occurs twice. */
  predicate NoDuplicates<T(==)>(s: seq<T>) {
    forall i, j | 0 <= i < j < |s| :: s[i] != s[j]
  }

  /** The set of keywords of `keys` that occur in `text`. */
  function PresentKeywords(keys: seq<string>, text: string): set<string> {
    set k | k in keys && Contains(text, k)
  }

  /**
   `sum(1 for k in keys if k in text)`: the number of table entries that occur
   in `text` (each entry counts once, however often it occurs).
   */
  function CountPresent(keys: seq<string>, text: string): (r: nat)
    ensures r <= |keys|
    ensures r > 0 <==> ContainsAny(text, keys)
  {
    if keys == [] then 0
    else
      var rest := CountPresent(keys[1..], text);
      assert forall k :: k in keys <==> k == keys[0] || k in keys[1..];
      (if Contains(text, keys[0]) then 1 else 0) + rest
  }

  /** For a table without repeated entries the count is the number of distinct keywords present. */
  lemma {:induction false} CountPresentIsCardinality(keys: seq<string>, text: string)
    requires NoDuplicates(keys)
    ensures CountPresent(keys, text) == |PresentKeywords(keys, text)|
  {
    if keys != [] {
      var tail := keys[1..];
      assert NoDuplicates(tail) by {
        forall i, j | 0 <= i < j < |tail| ensures tail[i] != tail[j] {
          assert tail[i] == keys[i + 1] && tail[j] == keys[j + 1];
        }
      }
      CountPresentIsCardinality(tail, text);
      assert keys[0] !in tail by {
        forall i | 0 <= i < |tail| ensures tail[i] != keys[0] {
          assert tail[i] == keys[i + 1];
        }
      }
      var head := if Contains(text, keys[0]) then {keys[0]} else {};
      assert PresentKeywords(keys, text) == head + PresentKeywords(tail, text) by {
        assert forall k :: k in keys <==> k == keys[0] || k in tail;
      }
      assert head !! PresentKeywords(tail, text);
    }
  }

  /**
   Removes repeated elements, keeping each element's first occurrence; this is
   the model's stand-in for Python's `list(set(xs))`.
   */
  function Dedup(s: seq<string>): (r: seq<string>)
    ensures NoDuplicates(r)
    ensures forall x :: x in r <==> x in s
    ensures |r| <= |s|
  {
    if s == [] then []
    else
      var init := s[..|s| - 1];
      var last := s[|s| - 1];
      var p := Dedup(init);
      assert forall x :: x in s <==> x in init || x == last by {
        assert s == init + [last];
      }
      if last in p then p else p + [last]
  }
}
