/**
 * The project-key rules of the project dialog (client/src/modal/ProjectModal.tsx):
 * the key suggested from the project name, and the key field's rule.
 */
module ProjectModal {
  import opened Wrappers
  import opened Seqs
  import opened Text

  /** `.replace(/[^A-Z0-9\s]/g, '')`: keep capitals, digits and white space. */
  function Clean(s: string): (r: string)
    ensures forall i :: 0 <= i < |r| ==> Kept(r[i])
    ensures forall c :: multiset(r)[c] == if Kept(c) then multiset(s)[c] else 0
    ensures Subseq(r, s)
  {
    FilterIsSubseq(s, Kept);
    FilterCounts(s, Kept);
    Filter(s, Kept)
  }

  predicate Kept(c: char) {
    IsUpper(c) || IsDigit(c) || IsSpace(c)
  }

  /** `.split(' ')`: the pieces between single spaces, empty pieces included. */
  function Split(s: string): (r: seq<string>)
    ensures |r| >= 1
    ensures forall k :: 0 <= k < |r| ==> ' ' !in r[k]
  {
    if s == [] then [""]
    else
      var rest := Split(s[1..]);
      if s[0] == ' ' then [""] + rest else [[s[0]] + rest[0]] + rest[1..]
  }

  /** `.join(' ')` */
  function Join(pieces: seq<string>): string
    requires |pieces| >= 1
  {
    if |pieces| == 1 then pieces[0] else pieces[0] + " " + Join(pieces[1..])
  }

  /** `.map(word => word.charAt(0)).join('')` */
  function Initials(pieces: seq<string>): string {
    if pieces == [] then ""
    else (if pieces[0] == "" then "" else [pieces[0][0]]) + Initials(pieces[1..])
  }

  /**
   * Reference definition: the characters that are not a space and stand at the
   * start of `s` (when `atStart`) or right after a space.
   */
  function WordStarts(s: string, atStart: bool): string {
    if s == [] then ""
    else (if s[0] != ' ' && atStart then [s[0]] else "") + WordStarts(s[1..], s[0] == ' ')
  }

  /** `.substring(0, 4)` */
  function Prefix4(s: string): (r: string)
    ensures |r| == if |s| < 4 then |s| else 4
    ensures r == s[..|r|]
  {
    if |s| <= 4 then s else s[..4]
  }

  /**
   * The key generated from a project name: upper-cased, cleaned, split on
   * spaces, the first character of each piece, cut to four characters.
   */
  function GeneratedKey(name: string): (k: string)
    ensures |k| <= 4
    ensures forall i :: 0 <= i < |k| ==> IsUpper(k[i]) || IsDigit(k[i]) || (IsSpace(k[i]) && k[i] != ' ')
    ensures k == Prefix4(WordStarts(Clean(ToUpper(name)), true))
  {
    var c := Clean(ToUpper(name));
    InitialsAreWordStarts(c);
    WordStartsAreWordChars(c, true);
    var w := WordStarts(c, true);
    var k := Prefix4(Initials(Split(c)));
    assert k == Prefix4(w);
    assert forall i :: 0 <= i < |k| ==> k[i] == w[i] && w[i] in c;
    k
  }

  datatype Mode = Create | Edit

  /** The key field after the name changes: regenerated in create mode for a non-empty name, kept when the result is empty. */
  function KeyAfterNameChange(mode: Mode, name: string, key: string): (r: string)
    ensures mode == Edit || name == "" ==> r == key
    ensures mode == Create && name != "" ==> r == if GeneratedKey(name) != "" then GeneratedKey(name) else key
  {
    if mode == Create && name != "" then
      var g := GeneratedKey(name);
      if g != "" then g else key
    else key
  }

  /** The key field's rule: required, at most 10 characters. */
  function KeyError(key: string): (e: Option<string>)
    ensures e.None? <==> 0 < |key| <= 10
  {
    if key == "" then Some("Project key is required")
    else if |key| > 10 then Some("Key must be 10 characters or less")
    else None
  }

  // ---------------------------------------------------------------------------
  // Properties
  // ---------------------------------------------------------------------------

  /** Splitting and joining again gives back the text. */
  lemma {:induction false} JoinSplit(s: string)
    ensures Join(Split(s)) == s
  {
    if s != [] {
      JoinSplit(s[1..]);
      var rest := Split(s[1..]);
      if s[0] != ' ' && |rest| > 1 {
        assert Split(s)[1..] == rest[1..];
      }
    }
  }

  /** The initials of the pieces are the word starts, of the whole text and of the text after its first piece. */
  lemma {:induction false} InitialsAreWordStarts(s: string)
    ensures Initials(Split(s)) == WordStarts(s, true)
    ensures Initials(Split(s)[1..]) == WordStarts(s, false)
  {
    if s != [] {
      InitialsAreWordStarts(s[1..]);
      var rest := Split(s[1..]);
      if s[0] == ' ' {
        assert Split(s)[1..] == rest;
      } else {
        assert Split(s)[1..] == rest[1..];
      }
    }
  }

  /** Every word start is a non-space character of the text. */
  lemma {:induction false} WordStartsAreWordChars(s: string, atStart: bool)
    ensures forall i :: 0 <= i < |WordStarts(s, atStart)| ==>
      WordStarts(s, atStart)[i] in s && WordStarts(s, atStart)[i] != ' '
  {
    if s != [] {
      WordStartsAreWordChars(s[1..], s[0] == ' ');
    }
  }

  /** A non-empty generated key always satisfies the key rule. */
  lemma GeneratedKeyIsValid(name: string)
    requires GeneratedKey(name) != ""
    ensures KeyError(GeneratedKey(name)).None?
  {
  }

  /** `toUpperCase` works character by character. */
  lemma ToUpperAppend(a: string, b: string)
    ensures ToUpper(a + b) == ToUpper(a) + ToUpper(b)
  {
    assert forall i :: 0 <= i < |a + b| ==> ToUpper(a + b)[i] == (ToUpper(a) + ToUpper(b))[i];
  }

  /**
   * Punctuation is removed before splitting: a character the cleaning drops,
   * such as the `-` of "a-b c", neither ends a word nor starts one.
   */
  lemma {:induction false} DroppedCharacterIsIgnored(a: string, c: char, b: string)
    requires !Kept(UpperChar(c))
    ensures GeneratedKey(a + [c] + b) == GeneratedKey(a + b)
  {
    ToUpperAppend(a + [c], b);
    ToUpperAppend(a, [c]);
    ToUpperAppend(a, b);
    assert ToUpper([c]) == [UpperChar(c)];
    FilterSkips(ToUpper(a), UpperChar(c), ToUpper(b), Kept);
  }
}
