/**
  The floating chat assistant: the greeting chosen when the chat opens, the
  send step, and the rule-based reply generator.
*/
module ChatBot {
  import opened Wrappers
  import opened Text
  import opened PackageId

  datatype Sender = User | Bot

  datatype Message = Message(sender: Sender, text: string)

  /**
    The confirmed plan as the chat reads it from storage. `planNumber` is the
    stored value as a template literal renders it; `packageIDs` may be absent.
  */
  datatype SavedPlan = SavedPlan(planNumber: string, packageIDs: Option<seq<string>>)

  /** A stored string is truthy when it is present and not empty. */
  predicate IsTruthy(marker: Option<string>) {
    marker.Some? && marker.value != ""
  }

  // ---------------------------------------------------------------------------
  // greeting
  //
  // Long texts are written as concatenations of shorter literals; each
  // concatenation is the whole message text.

  function PlanGreeting(plan: SavedPlan): seq<Message> {
    [ Message(Bot, "Thank you for " + "selecting Trip " + "Plan " + plan.planNumber + "!"),
      Message(Bot, "Here’s how the " + "system works: " + "Based on your " + "preferences and "
                   + "predicted budget, " + "we've created the " + "most optimized " + "travel combo for "
                   + "you. 💼"),
      Message(Bot, "Are you satisfied " + "with this plan? " + "Feel free to " + "share any " + "thoughts or "
                   + "feedback!") ]
  }

  const NoConfirmGreeting: seq<Message> :=
    [ Message(Bot, "Hi there! You " + "didn’t confirm a " + "trip plan."),
      Message(Bot, "Can I assist you " + "in customizing " + "one? You can ask " + "for help " + "combining "
                   + "Triplane 1 and 2, " + "or tell me what " + "you’re looking " + "for!") ]

  const DefaultGreeting: seq<Message> := [Message(Bot, "Hi! How can I " + "help you today? 😊")]

  /**
    The messages the chat starts with: three about the saved plan when there is
    one, else two when the no-confirm marker is set, else one greeting.
  */
  function Seed(savedPlan: Option<SavedPlan>, marker: Option<string>): (r: seq<Message>)
    ensures forall k | 0 <= k < |r| :: r[k].sender == Bot
    ensures savedPlan.Some? ==> |r| == 3 && Contains(r[0].text, savedPlan.value.planNumber)
    ensures savedPlan.None? && IsTruthy(marker) ==> |r| == 2
    ensures savedPlan.None? && !IsTruthy(marker) ==> |r| == 1
  {
    if savedPlan.Some? then
      ContainsMiddle("Thank you for " + "selecting Trip " + "Plan ", savedPlan.value.planNumber, "!");
      PlanGreeting(savedPlan.value)
    else if IsTruthy(marker) then NoConfirmGreeting
    else DefaultGreeting
  }

  // ---------------------------------------------------------------------------
  // replies

  const ComboReply := "Sure! A great " + "combo would be 3 " + "from Triplane 1 " + "and 2 from "
    + "Triplane 2. Want " + "me to suggest one?"
  const WelcomeReply := "You're welcome! 😊 " + "Enjoy your trip " + "and let me know " + "if you need "
    + "anything else."
  const SorryReply := "I'm sorry to hear " + "that. Want me to " + "help you create a " + "better package or "
    + "change your " + "selections?"
  const FallbackReply := "I'm here to help " + "with trip plans, " + "Triplane options, " + "or package IDs. "
    + "Ask me anything!"

  function InPlanReply(id: string): string {
    "Yes! Package ID " + id + " is part of your " + "confirmed plan."
  }

  function NotSelectedReply(id: string): string {
    "Package ID " + id + " wasn't selected. " + "Want to replace " + "or add it?"
  }

  predicate AsksForCombo(lower: string) {
    Contains(lower, "triplane 1") || Contains(lower, "triplane 2") || Contains(lower, "custom package")
  }

  predicate SaysThanks(lower: string) {
    Contains(lower, "thank you") || Contains(lower, "thanks")
  }

  predicate SaysUnhappy(lower: string) {
    Contains(lower, "not satisfied") || Contains(lower, "change")
  }

  /** `confirmedPlan?.packageIDs?.includes(id)`. */
  predicate InConfirmedPlan(plan: Option<SavedPlan>, id: string) {
    plan.Some? && plan.value.packageIDs.Some? && id in plan.value.packageIDs.value
  }

  /** The reply to `text`, given the confirmed plan the chat holds; always one of six templates. */
  function GenerateBotResponse(text: string, plan: Option<SavedPlan>): (r: string)
    ensures || r in {ComboReply, WelcomeReply, SorryReply, FallbackReply}
            || (FindPackageId(text).Some?
                && (r == InPlanReply(FindPackageId(text).value) || r == NotSelectedReply(FindPackageId(text).value)))
  {
    var lower := ToLower(text);
    var pkgIdMatch := FindPackageId(text);
    if AsksForCombo(lower) then ComboReply
    else if pkgIdMatch.Some? then
      var matchedId := pkgIdMatch.value;
      if InConfirmedPlan(plan, matchedId) then InPlanReply(matchedId) else NotSelectedReply(matchedId)
    else if SaysThanks(lower) then WelcomeReply
    else if SaysUnhappy(lower) then SorryReply
    else FallbackReply
  }

  // The six templates are told apart by their first characters, and each
  // identifier template determines the identifier it embeds.

  lemma InPlanReplyInjective(a: string, b: string)
    requires InPlanReply(a) == InPlanReply(b)
    ensures a == b
  {
    var ra, rb := InPlanReply(a), InPlanReply(b);
    assert |a| == |b|;
    assert a == ra[16..16 + |a|];
    assert b == rb[16..16 + |b|];
  }

  lemma NotSelectedReplyInjective(a: string, b: string)
    requires NotSelectedReply(a) == NotSelectedReply(b)
    ensures a == b
  {
    var ra, rb := NotSelectedReply(a), NotSelectedReply(b);
    assert |a| == |b|;
    assert a == ra[11..11 + |a|];
    assert b == rb[11..11 + |b|];
  }

  lemma TemplatesDistinct(a: string, b: string)
    ensures InPlanReply(a) != NotSelectedReply(b)
    ensures InPlanReply(a) !in {ComboReply, WelcomeReply, SorryReply, FallbackReply}
    ensures NotSelectedReply(b) !in {ComboReply, WelcomeReply, SorryReply, FallbackReply}
    ensures ComboReply != WelcomeReply && ComboReply != SorryReply && ComboReply != FallbackReply
    ensures WelcomeReply != SorryReply && WelcomeReply != FallbackReply && SorryReply != FallbackReply
  {
    assert InPlanReply(a)[0] == 'Y' && InPlanReply(a)[1] == 'e';
    assert NotSelectedReply(b)[0] == 'P';
    assert ComboReply[0] == 'S' && WelcomeReply[1] == 'o' && SorryReply[4] == 's' && FallbackReply[4] == 'h';
  }

  /** Rule 1: a request for a combination wins over everything else. */
  lemma ComboReplyIff(text: string, plan: Option<SavedPlan>)
    ensures GenerateBotResponse(text, plan) == ComboReply <==> AsksForCombo(ToLower(text))
  {
    TemplatesDistinct("", "");
    if FindPackageId(text).Some? {
      TemplatesDistinct(FindPackageId(text).value, FindPackageId(text).value);
    }
  }

  /** Rule 2a: "part of your confirmed plan" exactly when the found identifier is in the confirmed plan. */
  lemma InPlanReplyIff(text: string, plan: Option<SavedPlan>, id: string)
    ensures GenerateBotResponse(text, plan) == InPlanReply(id)
        <==> !AsksForCombo(ToLower(text)) && FindPackageId(text) == Some(id) && InConfirmedPlan(plan, id)
  {
    TemplatesDistinct(id, id);
    var r := GenerateBotResponse(text, plan);
    if r == InPlanReply(id) && FindPackageId(text).Some? {
      var found := FindPackageId(text).value;
      TemplatesDistinct(id, found);
      if r == InPlanReply(found) { InPlanReplyInjective(id, found); }
    }
  }

  /** Rule 2b: "wasn't selected" exactly when an identifier is found that the confirmed plan lacks. */
  lemma NotSelectedReplyIff(text: string, plan: Option<SavedPlan>, id: string)
    ensures GenerateBotResponse(text, plan) == NotSelectedReply(id)
        <==> !AsksForCombo(ToLower(text)) && FindPackageId(text) == Some(id) && !InConfirmedPlan(plan, id)
  {
    TemplatesDistinct(id, id);
    var r := GenerateBotResponse(text, plan);
    if r == NotSelectedReply(id) && FindPackageId(text).Some? {
      var found := FindPackageId(text).value;
      TemplatesDistinct(found, id);
      if r == NotSelectedReply(found) { NotSelectedReplyInjective(id, found); }
    }
  }

  /** Rule 3: thanks are answered only when no earlier rule applies. */
  lemma WelcomeReplyIff(text: string, plan: Option<SavedPlan>)
    ensures GenerateBotResponse(text, plan) == WelcomeReply
        <==> !AsksForCombo(ToLower(text)) && FindPackageId(text).None? && SaysThanks(ToLower(text))
  {
    TemplatesDistinct("", "");
    if FindPackageId(text).Some? {
      TemplatesDistinct(FindPackageId(text).value, FindPackageId(text).value);
    }
  }

  /** Rule 4: dissatisfaction is answered only when no earlier rule applies. */
  lemma SorryReplyIff(text: string, plan: Option<SavedPlan>)
    ensures GenerateBotResponse(text, plan) == SorryReply
        <==> !AsksForCombo(ToLower(text)) && FindPackageId(text).None? && !SaysThanks(ToLower(text))
             && SaysUnhappy(ToLower(text))
  {
    TemplatesDistinct("", "");
    if FindPackageId(text).Some? {
      TemplatesDistinct(FindPackageId(text).value, FindPackageId(text).value);
    }
  }

  /** Rule 5: the fallback is given exactly when no rule applies. */
  lemma FallbackReplyIff(text: string, plan: Option<SavedPlan>)
    ensures GenerateBotResponse(text, plan) == FallbackReply
        <==> !AsksForCombo(ToLower(text)) && FindPackageId(text).None? && !SaysThanks(ToLower(text))
             && !SaysUnhappy(ToLower(text))
  {
    TemplatesDistinct("", "");
    if FindPackageId(text).Some? {
      TemplatesDistinct(FindPackageId(text).value, FindPackageId(text).value);
    }
  }

  // ---------------------------------------------------------------------------
  // the widget's state

  /**
    A reply whose timer is running: the message it answers and the confirmed
    plan at the moment it was sent. The reply text is a function of these two
    alone, so computing it when the timer fires gives the text computed at
    send time.
  */
  datatype PendingReply = PendingReply(question: string, plan: Option<SavedPlan>)
  {
    function Reply(): string {
      GenerateBotResponse(question, plan)
    }
  }

  class ChatWidget {
    var messages: seq<Message>
    var input: string
    /** The plan last read from storage; it is set when a saved plan is found and never cleared. */
    var confirmedPlan: Option<SavedPlan>
    /** What storage holds under `chatTriggeredWithoutConfirm`: `None` when absent or removed. */
    var noConfirmMarker: Option<string>
    /** Replies whose timers are still running, in the order they were scheduled. */
    var scheduled: seq<PendingReply>

    constructor (marker: Option<string>)
      ensures messages == [] && input == "" && confirmedPlan == None
      ensures noConfirmMarker == marker && scheduled == []
    {
      messages, input, confirmedPlan := [], "", None;
      noConfirmMarker, scheduled := marker, [];
    }

    /**
      The effect run when `showChatBot` becomes `show`. When shown, the
      messages are replaced by the seed and the marker is removed, whichever
      seed was chosen; when hidden, nothing changes.
    */
    method Open(show: bool, savedPlan: Option<SavedPlan>)
      modifies this
      ensures !show ==> unchanged(this)
      ensures show ==> messages == Seed(savedPlan, old(noConfirmMarker)) && noConfirmMarker == None
      ensures show ==> confirmedPlan == (if savedPlan.Some? then savedPlan else old(confirmedPlan))
      ensures show ==> input == old(input) && scheduled == old(scheduled)
    {
      if !show {
        return;
      }
      if savedPlan.Some? {
        confirmedPlan := savedPlan;
      }
      messages := Seed(savedPlan, noConfirmMarker);
      noConfirmMarker := None;
    }

    /**
      Another part of the application writes `chatTriggeredWithoutConfirm`
      into storage (or removes it, with `None`); the next opening reads it.
    */
    method StoreMarker(marker: Option<string>)
      modifies this`noConfirmMarker
      ensures noConfirmMarker == marker
    {
      noConfirmMarker := marker;
    }

    /** Typing into the input box. */
    method SetInput(value: string)
      modifies this`input
      ensures input == value
    {
      input := value;
    }

    /**
      `handleSend`: blank input changes nothing; otherwise the untrimmed input
      is appended as the user's message, its reply is computed now and
      scheduled, and the input is cleared.
    */
    method Send()
      modifies this
      ensures Trim(old(input)) == "" ==> unchanged(this)
      ensures Trim(old(input)) != "" ==>
        && messages == old(messages) + [Message(User, old(input))]
        && scheduled == old(scheduled) + [PendingReply(old(input), old(confirmedPlan))]
        && input == ""
        && confirmedPlan == old(confirmedPlan) && noConfirmMarker == old(noConfirmMarker)
    {
      if Trim(input) == "" {
        return;
      }
      messages := messages + [Message(User, input)];
      scheduled := scheduled + [PendingReply(input, confirmedPlan)];
      input := "";
    }

    /** The oldest pending timer fires and its reply is appended. */
    method TimerFires()
      requires scheduled != []
      modifies this
      ensures messages == old(messages) + [Message(Bot, old(scheduled)[0].Reply())]
      ensures scheduled == old(scheduled)[1..]
      ensures input == old(input) && confirmedPlan == old(confirmedPlan) && noConfirmMarker == old(noConfirmMarker)
    {
      messages := messages + [Message(Bot, scheduled[0].Reply())];
      scheduled := scheduled[1..];
    }
  }
}
