/** The conversation renderer `formatConversation` (main.ts:88-98): a conversation becomes a
    Markdown note with a front-matter block, a heading and the transcript. Nothing is
    escaped; roles and contents pass through verbatim. */
module Render {
  import opened Wrappers
  import opened Text

  datatype Message = Message(role: string, content: string)

  datatype Conversation = Conversation(id: string, labelText: string, createdAt: string, messages: seq<Message>)

  /** One message as `**role**: content`: the role between bold markers, then a colon and a
      space, then the content verbatim. */
  function RenderMessage(m: Message): (r: string)
    ensures |r| == |m.role| + |m.content| + 6
    ensures r[..2] == "**" && r[2..2 + |m.role|] == m.role && r[2 + |m.role|..6 + |m.role|] == "**: "
    ensures r[6 + |m.role|..] == m.content
  {
    "**" + m.role + "**: " + m.content
  }

  /** Each message rendered, in input order (`messages.map(...)`). */
  function RenderedMessages(ms: seq<Message>): seq<string> {
    seq(|ms|, i requires 0 <= i < |ms| => RenderMessage(ms[i]))
  }

  /** The transcript: rendered messages joined by one blank line (`.join('\n\n')`). It is
      empty exactly when there are no messages, since a rendered message never is, and a
      single message is its own transcript. */
  function Transcript(ms: seq<Message>): (t: string)
    ensures t == "" <==> ms == []
    ensures |ms| == 1 ==> t == RenderMessage(ms[0])
  {
    Join(RenderedMessages(ms), "\n\n")
  }

  /** The template of `formatConversation` with its holes filled: the front-matter block,
      a blank line, the heading, a blank line, the transcript and one closing line feed. */
  function Note(labelText: string, created: string, id: string, transcript: string): string {
    "---\nlabel: " + (labelText + ("\ncreated: " + (created + ("\nsekha_id: " + (id
      + ("\n---\n\n# " + (labelText + ("\n\n" + (transcript + "\n")))))))))
  }

  /** Everything before the transcript: the front-matter block, the blank line, the
      heading and the blank line after it. It must stay the prefix of `Note`, which
      `NoteParts` proves. */
  function Header(labelText: string, created: string, id: string): string {
    "---\nlabel: " + (labelText + ("\ncreated: " + (created + ("\nsekha_id: " + (id
      + ("\n---\n\n# " + (labelText + "\n\n")))))))
  }

  /** `formatConversation`: the header, then the transcript, then one closing line feed;
      the header depends on the label, timestamp and id only, the rest on the messages
      only. */
  function FormatConversation(c: Conversation): (doc: string)
    ensures doc == Header(c.labelText, c.createdAt, c.id) + (Transcript(c.messages) + "\n")
  {
    Note(c.labelText, c.createdAt, c.id, Transcript(c.messages))
  }

  /** A note is its header, its transcript and a closing line feed. */
  lemma NoteParts(labelText: string, created: string, id: string, transcript: string)
    ensures Note(labelText, created, id, transcript) == Header(labelText, created, id) + (transcript + "\n")
  {
  }

  /** The lines of a note, as the document format describes them: an opening fence, the
      three metadata fields each on its own line, a closing fence, a blank line, the
      heading, a blank line, and the transcript. */
  function NoteLines(labelText: string, created: string, id: string, transcript: string): seq<string> {
    ["---", "label: " + labelText, "created: " + created, "sekha_id: " + id]
      + ["---", "", "# " + labelText, "", transcript]
  }

  lemma FrontMatterJoined(labelText: string, created: string, id: string)
    ensures Join(["---", "label: " + labelText, "created: " + created, "sekha_id: " + id], "\n")
         == "---\nlabel: " + (labelText + ("\ncreated: " + (created + ("\nsekha_id: " + id))))
  {
    var ls := ["---", "label: " + labelText, "created: " + created, "sekha_id: " + id];
    assert ls[3..] == ["sekha_id: " + id];
    assert Join(ls[3..], "\n") == "sekha_id: " + id;
    assert ls[2..] == ["created: " + created, "sekha_id: " + id];
    assert ls[2..][1..] == ls[3..];
    var j2 := Join(ls[2..], "\n");
    assert j2 == "created: " + created + "\n" + ("sekha_id: " + id);
    assert ls[1..][1..] == ls[2..];
    var j1 := Join(ls[1..], "\n");
    assert j1 == "label: " + labelText + "\n" + j2;
    assert j1 == "label: " + (labelText + ("\ncreated: " + (created + ("\nsekha_id: " + id))));
    assert Join(ls, "\n") == "---" + "\n" + j1;
  }

  lemma BodyJoined(labelText: string, transcript: string)
    ensures Join(["---", "", "# " + labelText, "", transcript], "\n") + "\n"
         == "---\n\n# " + (labelText + ("\n\n" + (transcript + "\n")))
  {
    JoinFive("---", "", "# " + labelText, "", transcript, "\n");
    var tail := "\n" + ("" + ("\n" + transcript));
    assert tail == "\n\n" + transcript;
    assert ("# " + labelText) + ("\n" + tail) == "# " + (labelText + ("\n" + tail));
  }

  /** A note is its lines joined by line feeds, followed by a final line feed. */
  lemma NoteIsLines(labelText: string, created: string, id: string, transcript: string)
    ensures Note(labelText, created, id, transcript) == Join(NoteLines(labelText, created, id, transcript), "\n") + "\n"
  {
    var a := ["---", "label: " + labelText, "created: " + created, "sekha_id: " + id];
    var b := ["---", "", "# " + labelText, "", transcript];
    var f := "---\nlabel: " + (labelText + ("\ncreated: " + (created + ("\nsekha_id: " + id))));
    var g := "---\n\n# " + (labelText + ("\n\n" + (transcript + "\n")));
    assert Join(a + b, "\n") == Join(a, "\n") + "\n" + Join(b, "\n") by {
      JoinConcat(a, b, "\n");
    }
    assert Join(a, "\n") == f by {
      FrontMatterJoined(labelText, created, id);
    }
    assert Join(b, "\n") + "\n" == g by {
      BodyJoined(labelText, transcript);
    }
    assert Note(labelText, created, id, transcript) == f + ("\n" + g);
  }

  /** The rendered conversation, line by line: fence, `label:`, `created:`, `sekha_id:`,
      fence, blank, `# label`, blank, transcript, each line ended by a line feed. */
  lemma FormatIsLines(c: Conversation)
    ensures FormatConversation(c)
         == Join(NoteLines(c.labelText, c.createdAt, c.id, Transcript(c.messages)), "\n") + "\n"
  {
    NoteIsLines(c.labelText, c.createdAt, c.id, Transcript(c.messages));
  }

  // ---------------------------------------------------------------------------
  // The transcript

  /** Message `i` appears verbatim in the transcript, directly after the transcript of the
      messages before it and one blank line (when there are earlier messages), and
      directly before one blank line and the transcript of the later messages (when there
      are any). This is input order with nothing escaped. */
  lemma TranscriptAt(ms: seq<Message>, i: nat)
    requires i < |ms|
    ensures Transcript(ms)
         == (Transcript(ms[..i]) + (if i == 0 then "" else "\n\n"))
          + RenderMessage(ms[i])
          + ((if i + 1 == |ms| then "" else "\n\n") + Transcript(ms[i + 1..]))
  {
    var parts := RenderedMessages(ms);
    assert parts[..i] == RenderedMessages(ms[..i]);
    assert parts[i + 1..] == RenderedMessages(ms[i + 1..]);
    JoinAt(parts, "\n\n", i);
  }

  /** Appending a message appends one blank line and its rendering (or just its
      rendering to an empty transcript). */
  lemma TranscriptSnoc(ms: seq<Message>, m: Message)
    ensures Transcript(ms + [m])
         == (if ms == [] then "" else Transcript(ms) + "\n\n") + RenderMessage(m)
  {
    var all := ms + [m];
    TranscriptAt(all, |ms|);
    assert all[..|ms|] == ms;
    assert all[|ms| + 1..] == [];
  }

  // ---------------------------------------------------------------------------
  // Properties of the rendered note

  /** Where message `i` starts in the rendered note. */
  function MessageOffset(c: Conversation, i: nat): nat
    requires i < |c.messages|
  {
    |Header(c.labelText, c.createdAt, c.id)| + |Transcript(c.messages[..i])| + (if i == 0 then 0 else 2)
  }

  /** A piece of the transcript sits in the note at its transcript position shifted by
      the header length. */
  lemma TranscriptPieceInNote(labelText: string, created: string, id: string, before: string, text: string, after: string)
    ensures var doc, k := Note(labelText, created, id, before + text + after), |Header(labelText, created, id)| + |before|;
            k + |text| <= |doc| && doc[k..k + |text|] == text
  {
    var head := Header(labelText, created, id);
    NoteParts(labelText, created, id, before + text + after);
    PieceAt(Note(labelText, created, id, before + text + after), |head| + |before|, head, before, text, after, "\n");
  }

  /** The rendered note around message `i`: the header, the transcript before it, the
      message, the transcript after it and the closing line feed. */
  lemma NoteAroundMessage(c: Conversation, i: nat)
    requires i < |c.messages|
    ensures var ms := c.messages;
            FormatConversation(c)
            == Header(c.labelText, c.createdAt, c.id)
             + (((Transcript(ms[..i]) + (if i == 0 then "" else "\n\n"))
                 + RenderMessage(ms[i])
                 + ((if i + 1 == |ms| then "" else "\n\n") + Transcript(ms[i + 1..])))
                + "\n")
  {
    TranscriptAt(c.messages, i);
  }

  /** Every message appears in the note as `**role**: content`, verbatim, at the position
      that follows the header and all earlier messages. */
  lemma MessageInNote(c: Conversation, i: nat)
    requires i < |c.messages|
    ensures var doc, k, text := FormatConversation(c), MessageOffset(c, i), RenderMessage(c.messages[i]);
            k + |text| <= |doc| && doc[k..k + |text|] == text
  {
    var ms := c.messages;
    var head := Header(c.labelText, c.createdAt, c.id);
    var before := Transcript(ms[..i]) + (if i == 0 then "" else "\n\n");
    var after := (if i + 1 == |ms| then "" else "\n\n") + Transcript(ms[i + 1..]);
    NoteAroundMessage(c, i);
    assert MessageOffset(c, i) == |head| + |before|;
    PieceAt(FormatConversation(c), MessageOffset(c, i), head, before, RenderMessage(ms[i]), after, "\n");
  }

  /** With no messages the note is the header and a single closing line feed, so it ends
      in the blank line after the heading and one more line feed. */
  lemma EmptyConversationNote(c: Conversation)
    requires c.messages == []
    ensures FormatConversation(c) == Header(c.labelText, c.createdAt, c.id) + "\n"
    ensures FormatConversation(c)[|FormatConversation(c)| - 3..] == "\n\n\n"
  {
    NoteParts(c.labelText, c.createdAt, c.id, "");
  }

  /** With no messages and no asterisk in the label, timestamp or id, the note holds no
      asterisk at all, so no `**` bold marker; with at least one message it does. */
  lemma BoldMarkersIffMessages(c: Conversation)
    requires '*' !in c.labelText && '*' !in c.createdAt && '*' !in c.id
    ensures '*' in FormatConversation(c) <==> c.messages != []
  {
    var doc := FormatConversation(c);
    if c.messages != [] {
      var k := MessageOffset(c, 0);
      assert k < |doc| && doc[k] == '*' by {
        MessageInNote(c, 0);
        assert RenderMessage(c.messages[0])[0] == '*';
      }
      assert doc[k] in doc;
    } else {
      var head := Header(c.labelText, c.createdAt, c.id);
      assert doc == head + "\n" by {
        EmptyConversationNote(c);
      }
      assert '*' !in head;
    }
  }

  // ---------------------------------------------------------------------------
  // Reading a note back

  datatype FrontMatter = FrontMatter(labelText: string, created: string, sekhaId: string)

  datatype ParsedNote = ParsedNote(front: FrontMatter, transcript: string)

  /** Reads a note in the rendered layout back into its front matter and transcript; None
      when the text does not have that layout. One stage per front-matter field. */
  function ParseNote(doc: string): Option<ParsedNote> {
    var (labelText, rest) :- TakeField(doc, "---\nlabel: ");
    ParseCreated(labelText, rest)
  }

  function ParseCreated(labelText: string, doc: string): Option<ParsedNote> {
    var (created, rest) :- TakeField(doc, "created: ");
    ParseSekhaId(labelText, created, rest)
  }

  function ParseSekhaId(labelText: string, created: string, doc: string): Option<ParsedNote> {
    var (id, rest) :- TakeField(doc, "sekha_id: ");
    ParseBody(FrontMatter(labelText, created, id), rest)
  }

  /** The closing fence, the heading for the label already read, and the transcript up to
      the final line feed. */
  function ParseBody(front: FrontMatter, doc: string): Option<ParsedNote> {
    var body :- StripPrefix(doc, "---\n\n# " + front.labelText + "\n\n");
    if |body| > 0 && body[|body| - 1] == '\n' then Some(ParsedNote(front, body[..|body| - 1]))
    else None
  }

  /** The rest of a note after its front matter reads back as the transcript. */
  lemma ParseBodyOf(front: FrontMatter, transcript: string)
    ensures ParseBody(front, "---\n\n# " + (front.labelText + ("\n\n" + (transcript + "\n"))))
         == Some(ParsedNote(front, transcript))
  {
    var t := transcript + "\n";
    var heading := "---\n\n# " + front.labelText + "\n\n";
    assert "---\n\n# " + (front.labelText + ("\n\n" + t)) == heading + t;
    StripPrefixOf(heading, t);
    assert t[..|t| - 1] == transcript;
  }

  /** The `sekha_id:` line is read back as the id. */
  lemma ParseSekhaIdOf(labelText: string, created: string, id: string, rest: string)
    requires '\n' !in id
    ensures ParseSekhaId(labelText, created, "sekha_id: " + (id + ("\n" + rest)))
         == ParseBody(FrontMatter(labelText, created, id), rest)
  {
    TakeFieldOf("sekha_id: ", id, rest);
  }

  /** The `created:` line is read back as the timestamp. */
  lemma ParseCreatedOf(labelText: string, created: string, rest: string)
    requires '\n' !in created
    ensures ParseCreated(labelText, "created: " + (created + ("\n" + rest)))
         == ParseSekhaId(labelText, created, rest)
  {
    TakeFieldOf("created: ", created, rest);
  }

  /** The opening fence and `label:` line are read back as the label. */
  lemma ParseLabelOf(labelText: string, rest: string)
    requires '\n' !in labelText
    ensures ParseNote("---\nlabel: " + (labelText + ("\n" + rest))) == ParseCreated(labelText, rest)
  {
    TakeFieldOf("---\nlabel: ", labelText, rest);
  }

  /** Reading a filled template back recovers its holes, provided the three one-line
      fields hold no line feed. */
  lemma ParseNoteRoundTrip(labelText: string, created: string, id: string, transcript: string)
    requires '\n' !in labelText && '\n' !in created && '\n' !in id
    ensures ParseNote(Note(labelText, created, id, transcript))
         == Some(ParsedNote(FrontMatter(labelText, created, id), transcript))
  {
    var front := FrontMatter(labelText, created, id);
    var r3 := "---\n\n# " + (labelText + ("\n\n" + (transcript + "\n")));
    var r2 := "sekha_id: " + (id + ("\n" + r3));
    var r1 := "created: " + (created + ("\n" + r2));
    assert Note(labelText, created, id, transcript) == "---\nlabel: " + (labelText + ("\n" + r1));
    ParseLabelOf(labelText, r1);
    ParseCreatedOf(labelText, created, r2);
    ParseSekhaIdOf(labelText, created, id, r3);
    ParseBodyOf(front, transcript);
  }

  /** When the label, timestamp and id hold no line feed, reading the rendered note back
      recovers each of them and the transcript exactly. */
  lemma ParseFormatRoundTrip(c: Conversation)
    requires '\n' !in c.labelText && '\n' !in c.createdAt && '\n' !in c.id
    ensures ParseNote(FormatConversation(c))
         == Some(ParsedNote(FrontMatter(c.labelText, c.createdAt, c.id), Transcript(c.messages)))
  {
    ParseNoteRoundTrip(c.labelText, c.createdAt, c.id, Transcript(c.messages));
  }
}
