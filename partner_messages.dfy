/** The partner message card: an append-only history shown four at a time,
    and quick-message buttons labelled with their text minus the emoji. */
module PartnerMessages {
  import opened Common

  datatype Sender = You | Partner

  datatype Message = Message(id: int, text: string, from: Sender, time: string)

  /** The history the card starts with. */
  const MockMessages := [
    Message(1, "Bom dia amor! J\U{E1} tomei meu caf\U{E9} saud\U{E1}vel \U{2615}", Partner, "08:30"),
    Message(2, "Que orgulho! Vou fazer o mesmo \U{1F49A}", You, "08:45"),
    Message(3, "Vamos caminhar depois do trabalho?", Partner, "14:20")
  ]

  /** How many messages the card shows. */
  const Shown := 4

  /** `messages.slice(-4)`: the last four, or all when there are fewer. */
  function Visible(messages: seq<Message>): (v: seq<Message>)
    ensures |v| == if |messages| < Shown then |messages| else Shown
    ensures v <= messages[|messages| - |v|..] && v == messages[|messages| - |v|..]
    ensures forall i :: 0 <= i < |v| ==> v[i] == messages[|messages| - |v| + i]
  {
    if |messages| <= Shown then messages else messages[|messages| - Shown..]
  }

  /** A sent message is always the last one shown, and the older shown ones
      keep their order. */
  lemma SentMessageIsShownLast(messages: seq<Message>, m: Message)
    ensures Visible(messages + [m])[|Visible(messages + [m])| - 1] == m
    ensures Visible(messages + [m])[..|Visible(messages + [m])| - 1]
            == (if |messages| < Shown then messages else messages[|messages| - (Shown - 1)..])
  {
    var all := messages + [m];
    var v := Visible(all);
    assert v[|v| - 1] == all[|all| - 1];
    assert v[..|v| - 1] == all[|all| - |v|..|all| - 1];
  }

  class MessageBoard {
    var messages: seq<Message>

    constructor()
      ensures messages == MockMessages
    {
      messages := MockMessages;
    }

    /** `handleSendQuickMessage`: one message from "you" is appended; the
        id and the time come from the clock. */
    method Send(text: string, id: int, time: string)
      modifies this
      ensures messages == old(messages) + [Message(id, text, You, time)]
      ensures |messages| == |old(messages)| + 1 && messages[..|old(messages)|] == old(messages)
    {
      messages := messages + [Message(id, text, You, time)];
    }
  }

  /** The first index at or after `k` where `p` occurs in `s`. */
  function SearchFrom(s: string, p: string, k: nat): (r: Option<nat>)
    ensures r.Some? ==> k <= r.value && OccursAt(s, p, r.value)
    ensures forall j :: k <= j && (r.None? || j < r.value) ==> !OccursAt(s, p, j)
    decreases |s| + 1 - k
  {
    if k + |p| > |s| then None
    else if s[k..k + |p|] == p then Some(k)
    else SearchFrom(s, p, k + 1)
  }

  /** `s.indexOf(p)`, absent for -1. */
  function FirstOccurrence(s: string, p: string): (r: Option<nat>)
    ensures r.None? <==> !Contains(s, p)
    ensures r.Some? ==> OccursAt(s, p, r.value) && forall j :: 0 <= j < r.value ==> !OccursAt(s, p, j)
  {
    SearchFrom(s, p, 0)
  }

  /** `s.replace(p, "")` with a string pattern: the first occurrence of `p`,
      if any, is cut out; the rest is kept in order. */
  function RemoveFirst(s: string, p: string): (r: string)
    ensures !Contains(s, p) ==> r == s
    ensures Contains(s, p) ==>
              |r| == |s| - |p|
              && exists i :: 0 <= i <= |r| && s == r[..i] + p + r[i..] && FirstAt(s, p, i)
  {
    var found := FirstOccurrence(s, p);
    if found.None? then s
    else
      var i := found.value;
      var r := s[..i] + s[i + |p|..];
      assert r[..i] == s[..i] && r[i..] == s[i + |p|..];
      assert s == r[..i] + p + r[i..];
      assert FirstAt(s, p, i);
      r
  }

  /** `p` occurs at `i` and nowhere before. */
  predicate FirstAt(s: string, p: string, i: int) {
    OccursAt(s, p, i) && forall j :: 0 <= j < i ==> !OccursAt(s, p, j)
  }

  /** The characters `String.prototype.trim` removes that the labels can
      contain: ASCII white space, no-break space and the byte-order mark. */
  predicate IsSpace(c: char) {
    c == ' ' || c == '\t' || c == '\n' || c == '\r' || c == '\U{0B}' || c == '\U{0C}'
    || c == '\U{A0}' || c == '\U{FEFF}'
  }

  /** No white space at either end. */
  predicate Trimmed(s: string) {
    s == [] || (!IsSpace(s[0]) && !IsSpace(s[|s| - 1]))
  }

  /** `trim()`: the longest middle piece with no space at either end. */
  function Trim(s: string): (r: string)
    ensures exists a, b :: 0 <= a <= b <= |s| && r == s[a..b]
              && (forall k :: 0 <= k < a ==> IsSpace(s[k]))
              && (forall k :: b <= k < |s| ==> IsSpace(s[k]))
    ensures Trimmed(r)
  {
    var a := LeadingSpaces(s);
    TrailingSpacesOf(s[a..]);
    var b := a + |s[a..]| - TrailingSpaces(s[a..]);
    assert s[a..b] == s[a..][..|s[a..]| - TrailingSpaces(s[a..])];
    s[a..b]
  }

  /** The number of spaces that start `s`. */
  function LeadingSpaces(s: string): (n: nat)
    ensures n <= |s|
    ensures forall k :: 0 <= k < n ==> IsSpace(s[k])
    ensures n < |s| ==> !IsSpace(s[n])
    decreases |s|
  {
    if s == [] || !IsSpace(s[0]) then 0 else 1 + LeadingSpaces(s[1..])
  }

  /** The number of spaces that end `s`. */
  function TrailingSpaces(s: string): (n: nat)
    ensures n <= |s|
    decreases |s|
  {
    if s == [] || !IsSpace(s[|s| - 1]) then 0 else 1 + TrailingSpaces(s[..|s| - 1])
  }

  lemma {:induction false} TrailingSpacesOf(s: string)
    ensures forall k :: |s| - TrailingSpaces(s) <= k < |s| ==> IsSpace(s[k])
    ensures TrailingSpaces(s) < |s| ==> !IsSpace(s[|s| - 1 - TrailingSpaces(s)])
    decreases |s|
  {
    if s != [] && IsSpace(s[|s| - 1]) {
      TrailingSpacesOf(s[..|s| - 1]);
    }
  }

  /** A quick message: what it sends and the emoji shown before its label. */
  datatype QuickMessage = QuickMessage(id: int, text: string, emoji: string)

  /** `msg.text.replace(msg.emoji, "").trim()`: the text with its first
      occurrence of the emoji cut out, then trimmed. The label has no white
      space at its ends, is shorter than the text by at least the emoji when
      the emoji occurs, and is the text itself when the emoji does not occur
      and the text is already trimmed. */
  function QuickLabel(m: QuickMessage): (shown: string)
    ensures shown == Trim(RemoveFirst(m.text, m.emoji))
    ensures Trimmed(shown)
    ensures |shown| <= |m.text| - (if Contains(m.text, m.emoji) then |m.emoji| else 0)
    ensures !Contains(m.text, m.emoji) && Trimmed(m.text) ==> shown == m.text
  {
    var rest := RemoveFirst(m.text, m.emoji);
    var t := Trim(rest);
    var a, b :| 0 <= a <= b <= |rest| && t == rest[a..b]
              && (forall k :: 0 <= k < a ==> IsSpace(rest[k]))
              && (forall k :: b <= k < |rest| ==> IsSpace(rest[k]));
    if !Contains(m.text, m.emoji) && Trimmed(m.text) then
      assert a == 0 && b == |rest|;
      t
    else
      t
  }

  const Heart := "\U{2764}\U{FE0F}"

  /** "Te amo! ❤️" is labelled "Te amo!". */
  lemma QuickLabelExample()
    ensures QuickLabel(QuickMessage(3, "Te amo! " + Heart, Heart)) == "Te amo!"
  {
    var text := "Te amo! " + Heart;
    assert OccursAt(text, Heart, 8);
    forall j | 0 <= j < 8
      ensures !OccursAt(text, Heart, j)
    {
      assert text[j] != Heart[0];
    }
    assert FirstOccurrence(text, Heart) == Some(8);
    assert RemoveFirst(text, Heart) == "Te amo! ";
    assert LeadingSpaces("Te amo! ") == 0;
    assert "Te amo! "[..7] == "Te amo!";
    assert TrailingSpaces("Te amo!") == 0;
    assert TrailingSpaces("Te amo! ") == 1;
  }
}
