/**
 * The plain-text transcript `exportChat` offers for download as
 * `chat-history.txt`: one `[role]: content` block per message, in log order,
 * separated by a blank line.
 */
module Transcript {
  import opened Text
  import opened Messages
  import opened Wrappers

  const Separator: string := "\n\n"
  const FileName: string := "chat-history.txt"

  /** The head `[role]: ` that opens the block of a message with this role. */
  function Header(role: Role): (h: string)
    ensures h == "[" + RoleName(role) + "]: "
    ensures |h| == |RoleName(role)| + 4
  {
    "[" + RoleName(role) + "]: "
  }

  /** The block of one message. */
  function Block(m: Message): (b: string)
    ensures StartsWith(b, Header(m.role))
    ensures b[|Header(m.role)|..] == m.content
  {
    Header(m.role) + m.content
  }

  /** A text opens with the header of at most one role, so the header of a
      block tells its role apart from the other two. */
  lemma HeaderDeterminesRole(a: Role, b: Role, s: string)
    requires StartsWith(s, Header(a)) && StartsWith(s, Header(b))
    ensures a == b
  {
    assert s[1] == Header(a)[1] == RoleName(a)[0];
    assert s[1] == Header(b)[1] == RoleName(b)[0];
  }

  /** Reads one block back: the inverse of `Block`. */
  function ParseBlock(b: string): (m: Option<Message>)
  {
    if StartsWith(b, Header(User)) then Some(Message(User, b[|Header(User)|..]))
    else if StartsWith(b, Header(Assistant)) then Some(Message(Assistant, b[|Header(Assistant)|..]))
    else if StartsWith(b, Header(System)) then Some(Message(System, b[|Header(System)|..]))
    else None
  }

  /** A block determines the message it was made from. */
  lemma BlockRoundTrip(m: Message)
    ensures ParseBlock(Block(m)) == Some(m)
  {
    var b := Block(m);
    assert b[1] == RoleName(m.role)[0];
    match m.role
    case User =>
    case Assistant =>
      assert !StartsWith(b, Header(User)) by { assert b[1] != Header(User)[1]; }
    case System =>
      assert !StartsWith(b, Header(User)) by { assert b[1] != Header(User)[1]; }
      assert !StartsWith(b, Header(Assistant)) by { assert b[1] != Header(Assistant)[1]; }
  }

  /** The transcript of a log: the blocks of its messages in log order,
      with one blank line between consecutive blocks. */
  function Render(log: seq<Message>): (text: string)
    ensures text == [] <==> log == []
  {
    if log == [] then ""
    else if |log| == 1 then Block(log[0])
    else Block(log[0]) + Separator + Render(log[1..])
  }

  /** A transcript opens with the block of the first message. */
  lemma RenderStartsWithFirstBlock(log: seq<Message>)
    requires log != []
    ensures StartsWith(Render(log), Block(log[0]))
  {
    var b := Block(log[0]);
    if |log| > 1 {
      assert (b + Separator + Render(log[1..]))[..|b|] == b;
    }
  }

  /** Appending a message to the log appends its block, after a separator
      when the log was not empty: blocks follow log order, one per message. */
  lemma {:induction false} RenderAppend(log: seq<Message>, m: Message)
    ensures Render(log + [m]) == if log == [] then Block(m) else Render(log) + Separator + Block(m)
  {
    if |log| == 1 {
      assert (log + [m])[1..] == [m];
    } else if |log| > 1 {
      assert (log + [m])[1..] == log[1..] + [m];
      RenderAppend(log[1..], m);
    }
  }

  /** One step of building the transcript left to right: the transcript of
      the first `i + 1` messages from that of the first `i`. */
  lemma RenderStep(log: seq<Message>, i: nat, text: string)
    requires i < |log| && text == Render(log[..i])
    ensures Render(log[..i + 1]) ==
              if i == 0 then Block(log[i]) else text + Separator + Block(log[i])
  {
    RenderAppend(log[..i], log[i]);
    assert log[..i + 1] == log[..i] + [log[i]];
  }

  /** The transcript of a log is the transcripts of its two parts joined by
      one separator. */
  lemma {:induction false} RenderConcat(a: seq<Message>, b: seq<Message>)
    requires a != [] && b != []
    ensures Render(a + b) == Render(a) + Separator + Render(b)
  {
    if |a| == 1 {
      assert (a + b)[1..] == b;
    } else {
      assert (a + b)[1..] == a[1..] + b;
      RenderConcat(a[1..], b);
    }
  }
}
