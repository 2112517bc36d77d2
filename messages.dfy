/**
 * The `GET /messages` route: the conversation's history, as returned by the
 * workflow's `get_history` query, projected onto `{text, actor}` rows.
 */
module Messages {
  import opened Common
  import opened PyStr
  import opened Conversation

  datatype MessageResponse = MessageResponse(text: string, actor: string)

  /**
   * Raised when an item's content has the wrong shape for its role: `.strip()`
   * on a user item whose content is a list, `.get` on the characters of an
   * assistant item whose content is a string.
   */
  datatype ProjectionError = AttributeError

  const OutputText: string := "output_text"

  /** Python truthiness of a `content` entry: present and neither "" nor []. */
  predicate HasContent(content: Option<Content>)
  {
    match content
    case None => false
    case Some(Text(s)) => s != ""
    case Some(Parts(ps)) => ps != []
  }

  /** Python truthiness of an optional string entry. */
  predicate NonEmpty(s: Option<string>)
  {
    s.Some? && s.value != ""
  }

  /** The rows of an assistant item's segments: the stripped text of each output-text segment, in order. */
  function SegmentRows(parts: seq<Segment>): (rows: seq<MessageResponse>)
    ensures |rows| <= |parts|
    ensures forall row :: row in rows ==> row.actor == "assistant"
  {
    if parts == [] then [] else SegmentRow(parts[0]) + SegmentRows(parts[1..])
  }

  /** Whether a segment is shown: it has text, it has a type, and the type is `output_text`. */
  predicate Shown(c: Segment)
  {
    NonEmpty(c.text) && NonEmpty(c.kind) && c.kind.value == OutputText
  }

  /** The row a segment contributes: none, or its stripped text as said by the assistant. */
  function SegmentRow(c: Segment): (rows: seq<MessageResponse>)
    ensures |rows| <= 1
    ensures rows != [] <==> Shown(c)
    ensures rows != [] ==> rows[0].actor == "assistant" && rows[0].text == Strip(c.text.value)
  {
    if Shown(c) then [MessageResponse(Strip(c.text.value), "assistant")] else []
  }

  /** The rows one history item contributes. */
  function TurnRows(turn: Turn): (r: Result<seq<MessageResponse>, ProjectionError>)
    ensures !HasContent(turn.content) || !NonEmpty(turn.role) ==> r == Ok([])
    ensures r.Ok? ==> forall row :: row in r.value ==> row.actor == turn.role.value
  {
    if !HasContent(turn.content) || !NonEmpty(turn.role) then Ok([])
    else if turn.role.value == "user" then
      match turn.content.value
      case Text(s) => Ok([MessageResponse(Strip(s), "user")])
      case Parts(_) => Err(AttributeError)
    else if turn.role.value == "assistant" then
      match turn.content.value
      case Parts(ps) => Ok(SegmentRows(ps))
      case Text(_) => Err(AttributeError)
    else Ok([])
  }

  /**
   * An item with content and a role shows by its role: a user item with
   * string content as one row of its stripped text, an assistant item with
   * a list of segments as the rows of its shown segments. The other shape
   * for either role raises `AttributeError`, and no other item raises.
   */
  lemma TurnRowsByRole(turn: Turn)
    ensures HasContent(turn.content) && turn.role == Some("user") ==>
      TurnRows(turn) == if turn.content.value.Text? then Ok([MessageResponse(Strip(turn.content.value.text), "user")]) else Err(AttributeError)
    ensures HasContent(turn.content) && turn.role == Some("assistant") ==>
      TurnRows(turn) == if turn.content.value.Parts? then Ok(SegmentRows(turn.content.value.parts)) else Err(AttributeError)
    ensures TurnRows(turn).Err? ==> HasContent(turn.content) && (turn.role == Some("user") || turn.role == Some("assistant"))
  {
  }

  /** The rows of a whole history, item after item; the first malformed item makes the request fail. */
  function Projection(history: seq<Turn>): (r: Result<seq<MessageResponse>, ProjectionError>)
    ensures r.Ok? <==> forall i {:trigger TurnRows(history[i])} :: 0 <= i < |history| ==> TurnRows(history[i]).Ok?
    ensures r.Err? ==> r.error == AttributeError
  {
    if history == [] then Ok([])
    else
      match TurnRows(history[0])
      case Err(e) => Err(e)
      case Ok(rows) =>
        match Projection(history[1..])
        case Err(e) => Err(e)
        case Ok(rest) => Ok(rows + rest)
  }

  /** `get_messages`: loops over the history appending rows. */
  method GetMessages(history: seq<Turn>) returns (r: Result<seq<MessageResponse>, ProjectionError>)
    ensures r == Projection(history)
  {
    var output: seq<MessageResponse> := [];
    var i := 0;
    while i < |history|
      invariant 0 <= i <= |history|
      invariant Projection(history[..i]) == Ok(output)
    {
      var message := history[i];
      ProjectionSnoc(history[..i + 1]);
      assert history[..i + 1][..i] == history[..i] && history[..i + 1][i] == message;
      assert output + [] == output;
      if HasContent(message.content) && NonEmpty(message.role) {
        var actor := message.role.value;
        if actor == "user" {
          if message.content.value.Parts? {
            ProjectionAppend(history[..i + 1], history[i + 1..]);
            assert history[..i + 1] + history[i + 1..] == history;
            return Err(AttributeError);
          }
          output := output + [MessageResponse(Strip(message.content.value.text), actor)];
        } else if actor == "assistant" {
          if message.content.value.Text? {
            ProjectionAppend(history[..i + 1], history[i + 1..]);
            assert history[..i + 1] + history[i + 1..] == history;
            return Err(AttributeError);
          }
          output := AppendSegmentRows(output, message.content.value.parts);
        }
      }
      i := i + 1;
    }
    assert history[..i] == history;
    return Ok(output);
  }

  /** The inner loop of `get_messages` over an assistant item's segments. */
  method AppendSegmentRows(output: seq<MessageResponse>, parts: seq<Segment>) returns (out: seq<MessageResponse>)
    ensures out == output + SegmentRows(parts)
  {
    out := output;
    var j := 0;
    while j < |parts|
      invariant 0 <= j <= |parts|
      invariant out == output + SegmentRows(parts[..j])
    {
      var c := parts[j];
      SegmentRowsSnoc(parts[..j + 1]);
      assert parts[..j + 1][..j] == parts[..j];
      ghost var before := out;
      if NonEmpty(c.text) && NonEmpty(c.kind) && c.kind.value == OutputText {
        out := out + [MessageResponse(Strip(c.text.value), "assistant")];
      }
      assert out == before + SegmentRow(c);
      assert output + SegmentRows(parts[..j + 1]) == before + SegmentRow(c);
      j := j + 1;
    }
    assert parts[..j] == parts;
  }

  lemma SegmentRowsSnoc(parts: seq<Segment>)
    requires parts != []
    ensures SegmentRows(parts) == SegmentRows(parts[..|parts| - 1]) + SegmentRow(parts[|parts| - 1])
  {
    var n := |parts| - 1;
    var last := parts[n];
    SnocSplit(parts);
    SegmentRowsAppend(parts[..n], [last]);
    assert [last][1..] == [];
    assert SegmentRows([last]) == SegmentRow(last) + SegmentRows([]);
    assert SegmentRow(last) + [] == SegmentRow(last);
  }

  lemma {:induction false} SegmentRowsAppend(a: seq<Segment>, b: seq<Segment>)
    ensures SegmentRows(a + b) == SegmentRows(a) + SegmentRows(b)
  {
    if a == [] {
      assert a + b == b;
    } else {
      assert (a + b)[1..] == a[1..] + b;
      SegmentRowsAppend(a[1..], b);
    }
  }

  /** Rows follow history order: the rows of two histories in sequence are the rows of the first, then of the second. */
  lemma {:induction false} ProjectionAppend(a: seq<Turn>, b: seq<Turn>)
    ensures Projection(a).Ok? && Projection(b).Ok? ==> Projection(a + b) == Ok(Projection(a).value + Projection(b).value)
    ensures Projection(a).Err? ==> Projection(a + b) == Projection(a)
    ensures Projection(a).Ok? && Projection(b).Err? ==> Projection(a + b) == Projection(b)
  {
    if a == [] {
      assert a + b == b;
      if Projection(b).Ok? {
        assert [] + Projection(b).value == Projection(b).value;
      }
    } else {
      var ab := a + b;
      assert ab[0] == a[0] && ab[1..] == a[1..] + b;
      ProjectionAppend(a[1..], b);
      match TurnRows(a[0])
      case Err(_) =>
      case Ok(rows) =>
        match Projection(a[1..] + b)
        case Err(_) =>
        case Ok(rest) =>
          if Projection(a[1..]).Ok? && Projection(b).Ok? {
            assert rows + (Projection(a[1..]).value + Projection(b).value)
                == (rows + Projection(a[1..]).value) + Projection(b).value;
          }
    }
  }

  lemma ProjectionSnoc(history: seq<Turn>)
    requires history != []
    ensures var n := |history| - 1;
      Projection(history) == match Projection(history[..n])
        case Err(e) => Err(e)
        case Ok(rows) => match TurnRows(history[n])
          case Err(e) => Err(e)
          case Ok(more) => Ok(rows + more)
  {
    var n := |history| - 1;
    var init := history[..n];
    var last := history[n];
    SnocSplit(history);
    ProjectionAppend(init, [last]);
    ProjectionSingle(last);
    if Projection(init).Ok? {
      if TurnRows(last).Ok? {
        assert Projection(history) == Ok(Projection(init).value + TurnRows(last).value);
      } else {
        assert Projection(history) == TurnRows(last);
      }
    } else {
      assert Projection(history) == Projection(init);
    }
  }

  lemma ProjectionSingle(turn: Turn)
    ensures Projection([turn]) == TurnRows(turn)
  {
    assert [turn][1..] == [];
    if TurnRows(turn).Ok? {
      assert TurnRows(turn).value + [] == TurnRows(turn).value;
    }
  }

  /** Every row comes from a user or an assistant item; developer, tool and other items contribute nothing. */
  lemma {:induction false} ProjectionActors(history: seq<Turn>)
    ensures Projection(history).Ok? ==>
      forall row :: row in Projection(history).value ==> row.actor == "user" || row.actor == "assistant"
  {
    if history != [] {
      ProjectionActors(history[1..]);
    }
  }

  /** An assistant item yields exactly its segments that carry text and have type `output_text`. */
  lemma {:induction false} SegmentRowsAreOutputText(parts: seq<Segment>, row: MessageResponse)
    requires row in SegmentRows(parts)
    ensures exists i :: 0 <= i < |parts| && parts[i].kind == Some(OutputText) &&
                        NonEmpty(parts[i].text) && row.text == Strip(parts[i].text.value)
  {
    var c := parts[0];
    if Shown(c) && row == MessageResponse(Strip(c.text.value), "assistant") {
    } else {
      SegmentRowsAreOutputText(parts[1..], row);
      var i :| 0 <= i < |parts[1..]| && parts[1..][i].kind == Some(OutputText)
        && NonEmpty(parts[1..][i].text) && row.text == Strip(parts[1..][i].text.value);
      assert parts[i + 1] == parts[1..][i];
    }
  }

  /** The item the workflow appends for a message is shown as that message's text, stripped. */
  lemma UserTurnShownAsSent(text: string)
    ensures Projection([UserTurn(text)]) == Ok([MessageResponse(Strip(text), "user")])
  {
    UserTurnStrips(text);
    ProjectionSingle(UserTurn(text));
  }
}
