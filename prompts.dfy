/**
 * The pure parts of the three prompt builders in app.py: the five-message
 * history window and its rendering, the detail-level heuristic and the
 * improved-prompt extraction. The requests built from them are in Pipeline.
 */
module Prompts {
  import opened Text

  /** One entry of the conversation: role "user" or "assistant". */
  datatype Message = Message(role: string, content: string, timestamp: string)

  const UserRole: string := "user"
  const AssistantRole: string := "assistant"

  /** The label a message gets in the rendered history. */
  function RoleLabel(role: string): (name: string)
    ensures name == "User" <==> role == UserRole
    ensures name == "User" || name == "Assistant"
  {
    if role == UserRole then "User" else "Assistant"
  }

  /** One rendered history line, `Role: content` and a newline. */
  function Line(m: Message): string
  {
    RoleLabel(m.role) + ": " + m.content + "\n"
  }

  /** Python's `history[-5:]`: the last five messages, or all of them. */
  function Window(h: seq<Message>): seq<Message>
  {
    if |h| <= 5 then h else h[|h| - 5..]
  }

  /** The window is the suffix of the history of length min(5, |h|). */
  lemma WindowIsSuffix(h: seq<Message>)
    ensures |Window(h)| == if |h| <= 5 then |h| else 5
    ensures Window(h) == h[|h| - |Window(h)|..]
    ensures forall k :: 0 <= k < |Window(h)| ==> Window(h)[k] == h[|h| - |Window(h)| + k]
  {
  }

  /**
   * The lines of `ms`, oldest first, accumulated from the left as the
   * `formatted_history += ...` loop does.
   */
  function Render(ms: seq<Message>): string
  {
    if ms == [] then "" else Render(ms[..|ms| - 1]) + Line(ms[|ms| - 1])
  }

  /** The `formatted_history` string built by each of the three prompt builders. */
  function FormatHistory(h: seq<Message>): string
  {
    Render(Window(h))
  }

  /** Rendering distributes over concatenation: each message is rendered on its own. */
  lemma {:induction false} RenderAppend(a: seq<Message>, b: seq<Message>)
    ensures Render(a + b) == Render(a) + Render(b)
    decreases |b|
  {
    if b == [] {
      assert a + b == a;
    } else {
      var b' := b[..|b| - 1];
      var last := b[|b| - 1];
      assert (a + b)[..|a + b| - 1] == a + b';
      assert (a + b)[|a + b| - 1] == last;
      RenderAppend(a, b');
      Associative(Render(a), Render(b'), Line(last));
    }
  }

  lemma Associative(x: string, y: string, z: string)
    ensures (x + y) + z == x + (y + z)
  {
  }

  /** The rendering of a list of messages is the first line followed by the rest. */
  lemma RenderCons(m: Message, ms: seq<Message>)
    ensures Render([m] + ms) == Line(m) + Render(ms)
  {
    RenderAppend([m], ms);
    assert Render([m]) == Line(m) by {
      assert [m][..0] == [];
    }
  }

  /** Nothing rendered means no message: every line holds at least `": \n"`. */
  lemma {:induction false} RenderEmptyIff(ms: seq<Message>)
    ensures Render(ms) == "" <==> ms == []
  {
    if ms != [] {
      assert |Render(ms)| >= |Line(ms[|ms| - 1])| >= 3;
    }
  }

  /** Rendering one more message of a list adds that message's line. */
  lemma RenderPrefix(w: seq<Message>, k: nat)
    requires k < |w|
    ensures Render(w[..k + 1]) == Render(w[..k]) + Line(w[k])
  {
    assert w[..k + 1][..k] == w[..k];
  }

  /** Five messages render as their five lines, oldest first. */
  lemma RenderFive(w: seq<Message>)
    requires |w| == 5
    ensures Render(w) == Line(w[0]) + Line(w[1]) + Line(w[2]) + Line(w[3]) + Line(w[4])
  {
    var l0, l1, l2, l3, l4 := Line(w[0]), Line(w[1]), Line(w[2]), Line(w[3]), Line(w[4]);
    assert w[..0] == [];
    RenderPrefix(w, 0);
    assert Render(w[..1]) == l0;
    RenderPrefix(w, 1);
    assert Render(w[..2]) == l0 + l1;
    RenderPrefix(w, 2);
    assert Render(w[..3]) == l0 + l1 + l2;
    RenderPrefix(w, 3);
    assert Render(w[..4]) == l0 + l1 + l2 + l3;
    RenderPrefix(w, 4);
    assert w[..5] == w;
  }

  /**
   * The formatted history is the rendering of the last min(5, |h|) messages,
   * oldest first; an empty history formats to the empty string.
   */
  lemma {:induction false} FormatHistoryShape(h: seq<Message>)
    ensures FormatHistory(h) == "" <==> h == []
    ensures |h| <= 5 ==> FormatHistory(h) == Render(h)
    ensures |h| >= 5 ==>
      FormatHistory(h) == Line(h[|h| - 5]) + Line(h[|h| - 4]) + Line(h[|h| - 3])
                          + Line(h[|h| - 2]) + Line(h[|h| - 1])
  {
    RenderEmptyIff(Window(h));
    if |h| >= 5 {
      WindowIsSuffix(h);
      RenderFive(Window(h));
    }
  }

  /**
   * Only the most recent five messages matter: two histories that end in the
   * same five messages format identically, whatever came before.
   */
  lemma OnlyLastFiveMatter(h: seq<Message>, older: seq<Message>)
    requires |h| >= 5
    ensures FormatHistory(older + h) == FormatHistory(h)
  {
    assert (older + h)[|older + h| - 5..] == h[|h| - 5..];
  }

  /**
   * Sliding window: once five messages are kept, appending one message drops
   * the oldest line and adds the new one at the end.
   */
  lemma FormatHistorySlides(h: seq<Message>, m: Message)
    requires |h| >= 5
    ensures FormatHistory(h + [m]) == Render(h[|h| - 4..]) + Line(m)
  {
    var w := Window(h + [m]);
    assert w == h[|h| - 4..] + [m];
    RenderAppend(h[|h| - 4..], [m]);
    assert [m][..0] == [];
  }

  /** The detail level derived from the analysis text. */
  datatype DetailLevel = Brief | Moderate | Detailed

  const DetailLabel: string := "DESIRED_DETAIL_LEVEL:"

  /**
   * The detail-level heuristic of `generate_final_response`: DETAILED unless
   * the analysis mentions the DESIRED_DETAIL_LEVEL label, in which case BRIEF
   * if "BRIEF" occurs anywhere in it, else MODERATE if "MODERATE" occurs
   * anywhere, else DETAILED.
   */
  function DetailLevelOf(analysis: string): (level: DetailLevel)
    ensures level == Brief <==> Contains(analysis, DetailLabel) && Contains(analysis, "BRIEF")
    ensures level == Moderate <==>
      Contains(analysis, DetailLabel) && !Contains(analysis, "BRIEF") && Contains(analysis, "MODERATE")
    ensures !Contains(analysis, DetailLabel) ==> level == Detailed
  {
    if Contains(analysis, DetailLabel) then
      if Contains(analysis, "BRIEF") then Brief
      else if Contains(analysis, "MODERATE") then Moderate
      else Detailed
    else Detailed
  }

  /** `detail_level.lower()`, the word spliced into the final prompt. */
  function DetailWord(level: DetailLevel): string
  {
    match level
    case Brief => "brief"
    case Moderate => "moderate"
    case Detailed => "detailed"
  }

  /** An analysis that answers `DESIRED_DETAIL_LEVEL: BRIEF` yields BRIEF. */
  lemma BriefAnswerSelectsBrief(analysis: string)
    requires Contains(analysis, "DESIRED_DETAIL_LEVEL: BRIEF")
    ensures DetailLevelOf(analysis) == Brief
  {
    var big := "DESIRED_DETAIL_LEVEL: BRIEF";
    assert big[..21] == DetailLabel;
    assert big[22..27] == "BRIEF";
    ContainsPart(analysis, big, 0, 21);
    ContainsPart(analysis, big, 22, 27);
  }

  /** An analysis that answers `DESIRED_DETAIL_LEVEL: MODERATE` and never says BRIEF yields MODERATE. */
  lemma ModerateAnswerSelectsModerate(analysis: string)
    requires Contains(analysis, "DESIRED_DETAIL_LEVEL: MODERATE")
    requires !Contains(analysis, "BRIEF")
    ensures DetailLevelOf(analysis) == Moderate
  {
    var big := "DESIRED_DETAIL_LEVEL: MODERATE";
    assert big[..21] == DetailLabel;
    assert big[22..30] == "MODERATE";
    ContainsPart(analysis, big, 0, 21);
    ContainsPart(analysis, big, 22, 30);
  }

  /** The marker that introduces the improved prompt in a refinement output. */
  const Marker: string := "IMPROVED PROMPT:"

  /**
   * The query after one refinement output: unchanged when the output lacks
   * the marker (no error), otherwise `output.split(Marker)[1].strip()`.
   */
  function NextQuery(output: string, query: string): (next: string)
    ensures !Contains(output, Marker) ==> next == query
    ensures Contains(output, Marker) ==> !Contains(next, Marker)
  {
    if Contains(output, Marker) then
      var piece := SplitSecond(output, Marker);
      StripKeepsOut(piece, Marker);
      Strip(piece)
    else query
  }
  /**
   * With the marker present, the new query is the text between the end of
   * the first marker and the start of the next one (the end of the output
   * when there is none), stripped of surrounding whitespace.
   */
  lemma NextQueryIsStrippedPiece(output: string, query: string)
    requires Contains(output, Marker)
    ensures var first := IndexOf(output, Marker).value + |Marker|;
      && first <= |output|
      && NextQuery(output, query) == Strip(output[first..PieceEnd(output, Marker, first)])
  {
    SplitSecondIsNextPiece(output, Marker, IndexOf(output, Marker).value + |Marker|);
  }
}
