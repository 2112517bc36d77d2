/**
 * The per-user conversation workflow: one pending-message slot, the
 * `_processing` lock that `message` holds while its message is processed,
 * and the history the agent runner hands back after each message.
 *
 * The workflow's concurrency is described sequentially: a caller of
 * `message` that finds the lock held waits for it, so `BeginMessage` is
 * entered only with the lock free; the run loop's `wait_condition` makes
 * `Step` run only with a message pending, and the caller's own
 * `wait_condition` makes `FinishMessage` run only once the slot is clear.
 */
module Conversation {
  import opened Common
  import opened PyStr

  /** One segment of a structured content list: its `text` and `type` entries. */
  datatype Segment = Segment(text: Option<string>, kind: Option<string>)

  /** The `content` entry of an input item: a plain string or a list of segments. */
  datatype Content = Text(text: string) | Parts(parts: seq<Segment>)

  /**
   * An item of the agent's input list, reduced to its `role` and `content`
   * entries (`None` when the entry is missing, as for tool-call items).
   */
  datatype Turn = Turn(role: Option<string>, content: Option<Content>)

  /** The message a user submits. */
  datatype Message = Message(text: string)

  /** What the runner returns: its final output and the whole input list of the run, new items included. */
  datatype RunResult = RunResult(finalOutput: string, inputList: seq<Turn>)

  datatype RuntimeError = RuntimeError(message: string)

  const IdPrefix: string := "conversation_"
  const SlotTakenMessage: string := "message already set, cannot update."

  /** `Conversation.id`: the workflow id of a user's conversation. */
  function Id(user: string): (id: string)
    ensures |id| == |IdPrefix| + |user|
    ensures id[..|IdPrefix|] == IdPrefix && id[|IdPrefix|..] == user
  {
    IdPrefix + user
  }

  /** Distinct users never share a conversation. */
  lemma IdInjective(a: string, b: string)
    requires a != b
    ensures Id(a) != Id(b)
  {
    assert Id(a)[|IdPrefix|..] == a;
  }

  /** The indentation the workflow's triple-quoted f-string puts around the message text. */
  const UserTurnPrefix: string := "\n" + Blanks(28)
  const UserTurnSuffix: string := "\n" + Blanks(24)

  /** The user item the run loop appends for a message. */
  function UserTurn(text: string): (t: Turn)
    ensures t.role == Some("user") && t.content.Some? && t.content.value.Text? && t.content.value.text != ""
  {
    Turn(Some("user"), Some(Text(UserTurnPrefix + text + UserTurnSuffix)))
  }

  /** The indentation added around the message is whitespace only, so stripping the item's content gives back the stripped message. */
  lemma UserTurnStrips(text: string)
    ensures Strip(UserTurn(text).content.value.text) == Strip(text)
  {
    assert IsSpace('\n');
    assert AllSpace(UserTurnPrefix) && AllSpace(UserTurnSuffix);
    StripSurrounded(UserTurnPrefix, text, UserTurnSuffix);
  }

  /** The check `message` makes on the slot: a taken slot raises, an empty one takes the message. */
  function FillSlot(slot: Option<Message>, m: Message): (r: Result<Message, RuntimeError>)
    ensures r.Err? <==> slot.Some?
    ensures r.Err? ==> r.error == RuntimeError(SlotTakenMessage)
    ensures r.Ok? ==> r.value == m
  {
    if slot.Some? then Err(RuntimeError(SlotTakenMessage)) else Ok(m)
  }

  class Conversation {
    /** `_message`: the pending-message slot. */
    var message: Option<Message>
    /** `_response`: the runner's last result. */
    var response: Option<RunResult>
    /** `_history`: the input list of the last run. */
    var history: seq<Turn>
    /** Whether the `_processing` lock is held. */
    var locked: bool
    /** `_user`: the user the workflow was started for. */
    var user: string

    /** A message is pending only while the caller that placed it holds the lock. */
    ghost predicate Valid()
      reads this
    {
      message.Some? ==> locked
    }

    /** `__init__`: no message, no response, empty history. */
    constructor ()
      ensures Valid()
      ensures message == None && response == None && history == [] && !locked && user == ""
    {
      message := None;
      response := None;
      history := [];
      locked := false;
      user := "";
    }

    /** The start of `run`: records the user the workflow serves. */
    method Start(userId: string)
      modifies this`user
      ensures user == userId
    {
      user := userId;
    }

    /** `get_history`: the current history; nothing changes. */
    method GetHistory() returns (h: seq<Turn>)
      ensures h == history
    {
      h := history;
    }

    /**
     * The first half of `message`: takes the lock and fills the slot. Since a
     * message is pending only while its caller holds the lock, the slot is
     * always empty here and the `RuntimeError` of `FillSlot` is never raised.
     */
    method BeginMessage(m: Message)
      requires Valid() && !locked
      modifies this`locked, this`message
      ensures Valid()
      ensures message == Some(m) && locked
    {
      locked := true;
      var filled := FillSlot(message, m);
      if filled.Err? {
        assert false;
      }
      message := Some(filled.value);
    }

    /**
     * One iteration of the run loop: runs the agent on the history followed
     * by one user item holding the message, takes the runner's input list as
     * the new history and clears the slot.
     */
    method Step(runner: seq<Turn> -> RunResult)
      requires Valid() && message.Some?
      modifies this`response, this`history, this`message
      ensures Valid()
      ensures response == Some(runner(old(history) + [UserTurn(old(message).value.text)]))
      ensures history == response.value.inputList
      ensures message == None
    {
      var input := history + [UserTurn(message.value.text)];
      var result := runner(input);
      response, history, message := Some(result), result.inputList, None;
    }

    /** The second half of `message`: once the slot is clear, returns the final output and releases the lock. */
    method FinishMessage() returns (output: string)
      requires Valid() && locked && message.None? && response.Some?
      modifies this`locked
      ensures Valid() && !locked
      ensures output == response.value.finalOutput
    {
      output := response.value.finalOutput;
      locked := false;
    }

    /**
     * A whole `message` call while no other is in progress: it is accepted,
     * processed once, and leaves the workflow idle again, so the next message
     * is accepted too.
     */
    method Converse(m: Message, runner: seq<Turn> -> RunResult) returns (output: string)
      requires Valid() && !locked
      modifies this`locked, this`message, this`response, this`history
      ensures Valid() && !locked && message == None
      ensures var result := runner(old(history) + [UserTurn(m.text)]);
        output == result.finalOutput && history == result.inputList
    {
      BeginMessage(m);
      Step(runner);
      output := FinishMessage();
    }
  }
}
