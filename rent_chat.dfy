/**
 * The rent-inquiry chat: a small dialogue that, on "rent", asks for the tenant's name
 * and unit and then shows the rent status notice, and otherwise answers with a fixed
 * maintenance prompt or an apology.
 *
 * `Respond` is the dialogue's transition on one trimmed, non-empty text; the class
 * `RentChat` holds the component's state and its methods are proved to follow it.
 */
module RentChat {
  import opened Wrappers
  import opened Text

  const WELCOME := "Hello! How can I help you today?"
  const ASK_UNIT := "Thanks! What is your unit number?"
  const APOLOGY := "I'm sorry, I can only help with maintenance requests or rent inquiries at the moment."
  const MAINTENANCE_PROMPT := "To submit a maintenance request, please describe the issue."
  const ASK_NAME := "To check your rent status, please provide your full name."
  const RENT_STATUS_NOTICE := "Database functionality temporarily disabled. This is a demo of the rent status feature."
  const RENT_STATUS_OPTIONS: seq<string> := ["Pay Rent"]
  const PAY_RENT_TEXT := "You can pay your rent through our online payment portal. Please note, this is a placeholder and not a real payment link."

  /** Where the rent dialogue stands. */
  datatype ConversationState = Idle | AwaitingName | AwaitingUnit | FetchingRent

  datatype Sender = FromUser | FromBot

  /** A chat bubble, with the buttons shown under it (none for most). */
  datatype ChatMessage = ChatMessage(from: Sender, text: string, options: seq<string>)

  /** What the dialogue has learnt about the tenant. */
  datatype TenantInfo = TenantInfo(name: string, unit: string)

  function UserSays(text: string): ChatMessage { ChatMessage(FromUser, text, []) }
  function BotSays(text: string): ChatMessage { ChatMessage(FromBot, text, []) }

  /** The rent status bubble, offering to pay. */
  const RENT_STATUS_MESSAGE := ChatMessage(FromBot, RENT_STATUS_NOTICE, RENT_STATUS_OPTIONS)

  /** The effect of one text: the new dialogue state, what is known of the tenant and the bot's replies. */
  datatype ChatTurn = ChatTurn(state: ConversationState, tenant: TenantInfo, replies: seq<ChatMessage>)

  /**
   * The text a send works on: the button's text when one is given and non-empty (the
   * `messageText || input` of the source), else the text box, trimmed.
   */
  function SendText(messageText: Option<string>, input: string): string {
    Trim(if messageText.Some? && messageText.value != "" then messageText.value else input)
  }

  /** The dialogue's transition on a text; looking up the rent status ends the dialogue. */
  function Respond(state: ConversationState, tenant: TenantInfo, text: string): ChatTurn {
    match state
    case AwaitingName => ChatTurn(AwaitingUnit, tenant.(name := text), [BotSays(ASK_UNIT)])
    case AwaitingUnit => ChatTurn(Idle, tenant.(unit := text), [RENT_STATUS_MESSAGE])
    case _ =>
      if Contains(ToLower(text), "maintenance") then ChatTurn(state, tenant, [BotSays(MAINTENANCE_PROMPT)])
      else if ToLower(text) == "rent" then ChatTurn(AwaitingName, tenant, [BotSays(ASK_NAME)])
      else ChatTurn(state, tenant, [BotSays(APOLOGY)])
  }

  /** Waiting for the name, the text becomes the name (the unit is kept) and the unit is asked for. */
  lemma NameIsCaptured(state: ConversationState, tenant: TenantInfo, text: string)
    requires state == AwaitingName
    ensures var t := Respond(state, tenant, text);
      t.state == AwaitingUnit && t.tenant.name == text && t.tenant.unit == tenant.unit
      && t.replies == [BotSays(ASK_UNIT)]
  {
  }

  /** Waiting for the unit, the text becomes the unit (the name is kept), the status is shown and the dialogue is idle. */
  lemma UnitIsCapturedThenIdle(state: ConversationState, tenant: TenantInfo, text: string)
    requires state == AwaitingUnit
    ensures var t := Respond(state, tenant, text);
      t.state == Idle && t.tenant.unit == text && t.tenant.name == tenant.name
      && t.replies == [RENT_STATUS_MESSAGE]
  {
  }

  /**
   * Outside the name and unit questions: one reply; "maintenance" in any case gets the
   * maintenance prompt and keeps the state; otherwise exactly "rent" in any case starts the
   * rent questions; anything else gets the apology and keeps the state.
   */
  lemma OtherTextRouting(state: ConversationState, tenant: TenantInfo, text: string)
    requires state != AwaitingName && state != AwaitingUnit
    ensures var t := Respond(state, tenant, text); var lower := ToLower(text);
      && |t.replies| == 1 && t.replies[0].from == FromBot && t.tenant == tenant
      && (t.replies[0] == BotSays(MAINTENANCE_PROMPT) <==> Contains(lower, "maintenance"))
      && (t.state == AwaitingName <==> lower == "rent")
      && (t.state != AwaitingName ==> t.state == state)
      && (t.replies[0] == BotSays(APOLOGY) <==> !Contains(lower, "maintenance") && lower != "rent")
  {
    var lower := ToLower(text);
    if lower == "rent" {
      assert !Contains(lower, "maintenance");
    }
  }

  /** A dialogue that is not fetching never rests in the fetching state after a text. */
  lemma NeverRestsInFetching(state: ConversationState, tenant: TenantInfo, text: string)
    requires state != FetchingRent
    ensures Respond(state, tenant, text).state != FetchingRent
  {
  }

  /** The text the "New Maintenance Request" button sends. */
  const MAINTENANCE_BUTTON := "New Maintenance Request"

  /**
   * The maintenance button outside the rent questions gets the maintenance prompt and
   * changes nothing else (while a name or unit is awaited, its text is taken as the answer).
   */
  lemma MaintenanceButtonPrompts(state: ConversationState, tenant: TenantInfo)
    requires state != AwaitingName && state != AwaitingUnit
    ensures Respond(state, tenant, MAINTENANCE_BUTTON) == ChatTurn(state, tenant, [BotSays(MAINTENANCE_PROMPT)])
  {
    var lower := ToLower(MAINTENANCE_BUTTON);
    assert lower == "new " + "maintenance" + " request";
    ContainsSelf("maintenance");
    ContainsInContext("maintenance", "maintenance", "new ", " request");
  }

  /** The record of several sends: final state and tenant, and every bubble in order. */
  datatype ChatLog = ChatLog(state: ConversationState, tenant: TenantInfo, messages: seq<ChatMessage>)

  /** Feeds trimmed, non-empty texts to the dialogue one after the other. */
  function Converse(state: ConversationState, tenant: TenantInfo, texts: seq<string>): ChatLog
    decreases |texts|
  {
    if texts == [] then ChatLog(state, tenant, [])
    else
      var t := Respond(state, tenant, texts[0]);
      var rest := Converse(t.state, t.tenant, texts[1..]);
      ChatLog(rest.state, rest.tenant, [UserSays(texts[0])] + t.replies + rest.messages)
  }

  /**
   * The whole rent inquiry from an idle chat: "rent" (any case), then a name, then a unit,
   * leaves the dialogue idle knowing exactly that name and unit, after asking for both
   * and showing the status notice.
   */
  lemma {:induction false} RentInquiryDialogue(tenant: TenantInfo, word: string, name: string, unit: string)
    requires ToLower(word) == "rent"
    ensures Converse(Idle, tenant, [word, name, unit]) ==
      ChatLog(Idle, TenantInfo(name, unit),
              [UserSays(word), BotSays(ASK_NAME), UserSays(name), BotSays(ASK_UNIT), UserSays(unit), RENT_STATUS_MESSAGE])
  {
    OtherTextRouting(Idle, tenant, word);
    var t1 := Respond(Idle, tenant, word);
    assert t1 == ChatTurn(AwaitingName, tenant, [BotSays(ASK_NAME)]);
    var t2 := Respond(AwaitingName, tenant, name);
    var t3 := Respond(AwaitingUnit, t2.tenant, unit);
    assert t3.tenant == TenantInfo(name, unit);
    assert [word, name, unit][1..] == [name, unit];
    assert [name, unit][1..] == [unit];
    assert [unit][1..] == [];
    assert Converse(Idle, TenantInfo(name, unit), []) == ChatLog(Idle, TenantInfo(name, unit), []);
    var c3 := Converse(AwaitingUnit, t2.tenant, [unit]);
    assert c3 == ChatLog(Idle, TenantInfo(name, unit), [UserSays(unit), RENT_STATUS_MESSAGE]);
    var c2 := Converse(AwaitingName, tenant, [name, unit]);
    assert c2 == ChatLog(Idle, TenantInfo(name, unit), [UserSays(name), BotSays(ASK_UNIT)] + c3.messages);
  }

  /** The chat component: its bubbles, its text box, its loading flag and the dialogue state. */
  class RentChat {
    var messages: seq<ChatMessage>
    var input: string
    var isLoading: bool
    var conversationState: ConversationState
    var tenantInfo: TenantInfo

    /** Between two user actions nothing is loading and no rent status is being fetched. */
    predicate Valid()
      reads this
    {
      !isLoading && conversationState != FetchingRent
    }

    /** Mounting the chat: the welcome bubble, an idle dialogue and an unknown tenant. */
    constructor ()
      ensures Valid() && messages == [BotSays(WELCOME)] && input == ""
      ensures conversationState == Idle && tenantInfo == TenantInfo("", "")
    {
      messages := [BotSays(WELCOME)];
      input := "";
      isLoading := false;
      conversationState := Idle;
      tenantInfo := TenantInfo("", "");
    }

    /** Typing in the text box. */
    method Edit(text: string)
      modifies this`input
      ensures input == text
    {
      input := text;
    }

    /** Shows the (demo) rent status for a tenant and ends the rent dialogue. */
    method FetchRentStatus(name: string, unit: string)
      modifies this`isLoading, this`messages, this`conversationState
      ensures messages == old(messages) + [RENT_STATUS_MESSAGE]
      ensures !isLoading && conversationState == Idle
    {
      isLoading := true;
      messages := messages + [RENT_STATUS_MESSAGE];
      isLoading := false;
      conversationState := Idle;
    }

    /**
     * Sending a text (a button's, or the text box's): a blank text changes nothing;
     * otherwise the trimmed text is shown as the user's bubble, the text box is cleared
     * and the dialogue takes its step.
     */
    method Send(messageText: Option<string>)
      requires Valid()
      modifies this
      ensures Valid()
      ensures SendText(messageText, old(input)) == "" ==> unchanged(this)
      ensures var text := SendText(messageText, old(input));
        text != "" ==>
          var t := Respond(old(conversationState), old(tenantInfo), text);
          && conversationState == t.state && tenantInfo == t.tenant
          && messages == old(messages) + [UserSays(text)] + t.replies
          && input == ""
    {
      var text := SendText(messageText, input);
      if text != "" {
        Deliver(text);
      }
    }

    /** A non-blank sent text: the user's bubble, a cleared text box and the dialogue's step. */
    method Deliver(text: string)
      requires Valid()
      modifies this
      ensures Valid()
      ensures var t := Respond(old(conversationState), old(tenantInfo), text);
        && conversationState == t.state && tenantInfo == t.tenant
        && messages == old(messages) + [UserSays(text)] + t.replies
        && input == ""
    {
      messages := messages + [UserSays(text)];
      input := "";
      isLoading := true;
      NeverRestsInFetching(conversationState, tenantInfo, text);
      Reply(text);
      isLoading := false;
    }

    /** The dialogue's step on a sent text, once the user's bubble is shown. */
    method Reply(text: string)
      requires conversationState != FetchingRent
      modifies this`messages, this`tenantInfo, this`conversationState, this`isLoading
      ensures var t := Respond(old(conversationState), old(tenantInfo), text);
        && conversationState == t.state && tenantInfo == t.tenant
        && messages == old(messages) + t.replies
    {
      if conversationState == AwaitingName {
        tenantInfo := tenantInfo.(name := text);
        conversationState := AwaitingUnit;
        messages := messages + [BotSays(ASK_UNIT)];
      } else if conversationState == AwaitingUnit {
        var currentTenantInfo := tenantInfo.(unit := text);
        tenantInfo := currentTenantInfo;
        conversationState := FetchingRent;
        FetchRentStatus(currentTenantInfo.name, text);
      } else {
        var botResponse := APOLOGY;
        if Contains(ToLower(text), "maintenance") {
          botResponse := MAINTENANCE_PROMPT;
        } else if ToLower(text) == "rent" {
          botResponse := ASK_NAME;
          conversationState := AwaitingName;
        }
        messages := messages + [BotSays(botResponse)];
      }
    }

    /** The "Rent" button: whatever the state, asks for the name as if the user had said "Rent". */
    method RentInquiry()
      requires Valid()
      modifies this
      ensures Valid()
      ensures messages == old(messages) + [UserSays("Rent"), BotSays(ASK_NAME)]
      ensures conversationState == AwaitingName
      ensures tenantInfo == old(tenantInfo) && input == old(input)
    {
      messages := messages + [UserSays("Rent")];
      conversationState := AwaitingName;
      messages := messages + [BotSays(ASK_NAME)];
    }

    /** The "Pay Rent" option under the status notice. */
    method PayRent()
      modifies this`messages
      ensures messages == old(messages) + [BotSays(PAY_RENT_TEXT)]
    {
      messages := messages + [BotSays(PAY_RENT_TEXT)];
    }
  }
}
