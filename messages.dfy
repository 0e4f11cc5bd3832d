/**
 * Chat messages, the LangGraph conversation state with its `add_messages`
 * reducer, and the two pieces of Python semantics the routing core relies on:
 * negative list indexing and `str.lower`.
 */
module Messages {
  import opened Wrappers

  /** SystemMessage, HumanMessage (the `"user"` role) and AIMessage. */
  datatype Role = System | User | AI

  datatype Message = Message(role: Role, content: string)

  function SystemMessage(content: string): Message { Message(System, content) }

  function UserMessage(content: string): Message { Message(User, content) }

  function AIMessage(content: string): Message { Message(AI, content) }

  /** The `messages` channel of the graph state. */
  type State = seq<Message>

  /**
   * The `add_messages` reducer: the delta a node returns is appended to the
   * state. (No node here reuses a message id, so the id-based replacement of
   * the library reducer never applies.)
   */
  function AddMessages(left: State, right: seq<Message>): (merged: State)
    ensures |merged| == |left| + |right|
    ensures merged[..|left|] == left
    ensures merged[|left|..] == right
  {
    left + right
  }

  /** The message text Python gives for an out-of-range list index. */
  const IndexErrorText := "list index out of range"

  /**
   * Python's `s[i]`: a negative index counts from the end; outside
   * `-len(s) <= i < len(s)` the lookup raises IndexError (`None` here).
   */
  function PyIndex<T>(s: seq<T>, i: int): (r: Option<T>)
    ensures r.Some? <==> -|s| <= i < |s|
  {
    if 0 <= i < |s| then Some(s[i])
    else if -|s| <= i < 0 then Some(s[|s| + i])
    else None
  }

  /** `s[-k]` is the k-th element from the end: the first of the last k. */
  lemma PyIndexFromEnd<T>(prefix: seq<T>, suffix: seq<T>)
    requires |suffix| > 0
    ensures PyIndex(prefix + suffix, -|suffix|) == Some(suffix[0])
  {
  }

  /** ASCII lower-casing of one character; every other character is kept. */
  function LowerChar(c: char): (d: char)
    ensures !('A' <= d <= 'Z')
    ensures d != c ==> 'A' <= c <= 'Z' && d as int == c as int + 32
    ensures 'A' <= c <= 'Z' ==> d != c
  {
    if 'A' <= c <= 'Z' then (c as int + 32) as char else c
  }

  /** `s.lower()`, restricted to ASCII letters. */
  function Lower(s: string): (r: string)
    ensures |r| == |s|
    ensures forall i :: 0 <= i < |s| ==> r[i] == LowerChar(s[i])
  {
    if s == [] then [] else [LowerChar(s[0])] + Lower(s[1..])
  }

  /** A word with no upper-case ASCII letter in it. */
  predicate NoUpper(word: string) {
    forall i :: 0 <= i < |word| ==> !('A' <= word[i] <= 'Z')
  }

  /** `c` is `w` itself or, when `w` is a lower-case ASCII letter, its capital. */
  predicate SameLetterIgnoringCase(c: char, w: char) {
    c == w || ('a' <= w <= 'z' && c as int == w as int - 32)
  }

  /** `s` spells `word` letter by letter, each letter in either case. */
  predicate EqualsIgnoringCase(s: string, word: string) {
    |s| == |word| && forall i :: 0 <= i < |s| ==> SameLetterIgnoringCase(s[i], word[i])
  }

  lemma LowerCharMatches(c: char, w: char)
    requires !('A' <= w <= 'Z')
    ensures LowerChar(c) == w <==> SameLetterIgnoringCase(c, w)
  {
  }

  /**
   * Comparing `s.lower()` with a lower-case word is case-insensitive
   * comparison, and nothing more: no trimming, no other normalisation.
   */
  lemma LowerEqualsIff(s: string, word: string)
    requires NoUpper(word)
    ensures Lower(s) == word <==> EqualsIgnoringCase(s, word)
  {
    if Lower(s) == word {
      forall i | 0 <= i < |s| ensures SameLetterIgnoringCase(s[i], word[i]) {
        LowerCharMatches(s[i], word[i]);
      }
    }
    if EqualsIgnoringCase(s, word) {
      forall i | 0 <= i < |s| ensures Lower(s)[i] == word[i] {
        LowerCharMatches(s[i], word[i]);
      }
    }
  }
}
