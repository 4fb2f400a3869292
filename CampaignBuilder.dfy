/** The campaign builder screen: the audience-segment rule editor (a list of
    condition groups, each a combinator with its list of rules), the save gate
    and the two-step save (segment, then campaign), the clean-up of a doubled
    greeting in the message, and the audience type sent to the suggestion
    service. */
module CampaignBuilder {
  import opened Common
  import opened Text

  // ---------------------------------------------------------------------------
  // The rule model
  // ---------------------------------------------------------------------------

  /** One audience rule `{field, operator, value}`. */
  datatype Rule = Rule(field: string, operator: string, value: string)

  /** The three properties of a rule that a rule-change event can name. */
  datatype RuleKey = FieldKey | OperatorKey | ValueKey

  /** A condition group: its combinator `operator` ("AND" or "OR") and its rules. */
  datatype Group = Group(operator: string, rules: seq<Rule>)

  const EmptyRule := Rule("", "", "")

  /** The group `addConditionGroup` appends. */
  const NewGroup := Group("AND", [EmptyRule])

  /** `segmentConditions` when the screen opens. */
  const InitialConditions := [NewGroup]

  /** What the two delete buttons' `disabled` flags keep true: there is at least
      one group, and every group has at least one rule. */
  predicate WellFormed(gs: seq<Group>)
  {
    |gs| >= 1 && forall i :: 0 <= i < |gs| ==> |gs[i].rules| >= 1
  }

  /** The property of a rule that `key` names. */
  function RuleProperty(r: Rule, key: RuleKey): string
  {
    match key
    case FieldKey => r.field
    case OperatorKey => r.operator
    case ValueKey => r.value
  }

  /** `{...rule, [key]: v}`: the named property becomes `v`, the others stay. */
  function SetRuleProperty(r: Rule, key: RuleKey, v: string): (r': Rule)
    ensures RuleProperty(r', key) == v
    ensures forall k :: k != key ==> RuleProperty(r', k) == RuleProperty(r, k)
  {
    match key
    case FieldKey => r.(field := v)
    case OperatorKey => r.(operator := v)
    case ValueKey => r.(value := v)
  }

  /** `addConditionGroup`: a fresh AND group with one empty rule goes at the end. */
  function AppendGroup(gs: seq<Group>): (r: seq<Group>)
    ensures |r| == |gs| + 1 && r[..|gs|] == gs
    ensures r[|gs|] == NewGroup && r[|gs|].operator == "AND" && r[|gs|].rules == [Rule("", "", "")]
    ensures WellFormed(gs) ==> WellFormed(r)
  {
    gs + [NewGroup]
  }

  /** `removeConditionGroup(i)`: group `i` goes, the others keep their order. */
  function DeleteGroup(gs: seq<Group>, i: nat): (r: seq<Group>)
    requires i < |gs|
    ensures |r| == |gs| - 1
    ensures forall j :: 0 <= j < i ==> r[j] == gs[j]
    ensures forall j :: i <= j < |r| ==> r[j] == gs[j + 1]
    ensures WellFormed(gs) && |gs| > 1 ==> WellFormed(r)
  {
    RemoveAt(gs, i)
  }

  /** `handleConditionGroupChange(g, 'operator', v)`: only group `g`'s combinator changes. */
  function SetCombinator(gs: seq<Group>, g: nat, v: string): (r: seq<Group>)
    requires g < |gs|
    ensures |r| == |gs| && r[g].operator == v && r[g].rules == gs[g].rules
    ensures forall j :: 0 <= j < |gs| && j != g ==> r[j] == gs[j]
    ensures WellFormed(r) <==> WellFormed(gs)
  {
    gs[g := gs[g].(operator := v)]
  }

  /** `handleRuleChange(g, k, key, v)`: only the named property of rule `k` of
      group `g` changes; no count changes. */
  function SetRule(gs: seq<Group>, g: nat, k: nat, key: RuleKey, v: string): (r: seq<Group>)
    requires g < |gs| && k < |gs[g].rules|
    ensures |r| == |gs| && r[g].operator == gs[g].operator && |r[g].rules| == |gs[g].rules|
    ensures forall j :: 0 <= j < |gs| && j != g ==> r[j] == gs[j]
    ensures forall j :: 0 <= j < |gs[g].rules| && j != k ==> r[g].rules[j] == gs[g].rules[j]
    ensures RuleProperty(r[g].rules[k], key) == v
    ensures forall other :: other != key ==>
      RuleProperty(r[g].rules[k], other) == RuleProperty(gs[g].rules[k], other)
    ensures WellFormed(r) <==> WellFormed(gs)
  {
    var group := gs[g];
    gs[g := group.(rules := group.rules[k := SetRuleProperty(group.rules[k], key, v)])]
  }

  /** `addRule(g)`: one empty rule goes at the end of group `g` only. */
  function AppendRule(gs: seq<Group>, g: nat): (r: seq<Group>)
    requires g < |gs|
    ensures |r| == |gs| && r[g].operator == gs[g].operator
    ensures r[g].rules == gs[g].rules + [Rule("", "", "")]
    ensures forall j :: 0 <= j < |gs| && j != g ==> r[j] == gs[j]
    ensures WellFormed(gs) ==> WellFormed(r)
  {
    gs[g := gs[g].(rules := gs[g].rules + [EmptyRule])]
  }

  /** `removeRule(g, k)`: rule `k` of group `g` goes, everything else stays in order. */
  function DeleteRule(gs: seq<Group>, g: nat, k: nat): (r: seq<Group>)
    requires g < |gs| && k < |gs[g].rules|
    ensures |r| == |gs| && r[g].operator == gs[g].operator
    ensures |r[g].rules| == |gs[g].rules| - 1
    ensures forall j :: 0 <= j < k ==> r[g].rules[j] == gs[g].rules[j]
    ensures forall j :: k <= j < |r[g].rules| ==> r[g].rules[j] == gs[g].rules[j + 1]
    ensures forall j :: 0 <= j < |gs| && j != g ==> r[j] == gs[j]
    ensures WellFormed(gs) && |gs[g].rules| > 1 ==> WellFormed(r)
  {
    gs[g := gs[g].(rules := RemoveAt(gs[g].rules, k))]
  }

  /** A fresh builder holds one AND group with one empty rule; adding a group to
      it gives two such groups, and group 0's only rule cannot be removed. */
  lemma FreshBuilderAddGroup()
    ensures WellFormed(InitialConditions) && InitialConditions == [Group("AND", [Rule("", "", "")])]
    ensures var gs := AppendGroup(InitialConditions);
      |gs| == 2 && gs[0] == gs[1] == NewGroup && !(1 < |gs[0].rules|)
  {
  }

  // ---------------------------------------------------------------------------
  // The campaign draft, the save gate and the save sequence
  // ---------------------------------------------------------------------------

  datatype DraftStats = DraftStats(audienceSize: int, sent: int, failed: int)

  /** The `campaign` state of the screen. */
  datatype Campaign = Campaign(name: string, description: string, messageContent: string,
                               messageTemplate: string, status: string, stats: DraftStats)

  const InitialCampaign := Campaign("", "", "", "Hi {{customerName}}, {{message}}", "draft",
                                    DraftStats(0, 0, 0))

  /** The inputs that send a change event named after a campaign property. */
  datatype CampaignField = Name | Description | MessageContent

  /** A create call's response body: `_id` if the server sent one. */
  datatype Created = Created(id: Option<string>)

  /** The network calls the builder issues, in the order it issues them. */
  datatype Request =
    | GetCampaign(campaignId: string)
    | PreviewSegment(conditions: seq<Group>)
    | CreateSegment(name: string, description: string, conditions: seq<Group>)
    | CreateFromSegment(segmentId: string, name: string, description: string, messageContent: string)
    | GenerateSuggestions(objective: string, audienceType: string)
    | ConvertRules(naturalLanguage: string)

  const FillFieldsError := "Please fill in all required fields"
  const NoRulesError := "Please add at least one audience rule"
  const SaveFallbackError := "Failed to save campaign"
  const SavedMessage := "Campaign saved successfully!"

  /** The checks `handleSave` makes before any network call: the three required
      properties are non-empty, there is a group, and the FIRST group has a rule.
      Rule completeness and later groups are not checked. */
  function SaveGate(c: Campaign, gs: seq<Group>): (e: Option<string>)
    ensures e.None? <==> c.name != "" && c.description != "" && c.messageContent != ""
                         && |gs| > 0 && |gs[0].rules| > 0
    ensures e == Some(FillFieldsError) <==> c.name == "" || c.description == "" || c.messageContent == ""
    ensures e == Some(NoRulesError) <==>
      c.name != "" && c.description != "" && c.messageContent != "" && (|gs| == 0 || |gs[0].rules| == 0)
  {
    if c.name == "" || c.description == "" || c.messageContent == "" then Some(FillFieldsError)
    else if |gs| == 0 || |gs[0].rules| == 0 then Some(NoRulesError)
    else None
  }

  /** A campaign with its required properties filled in and a well-formed rule
      list always passes the gate. */
  lemma WellFormedPassesGate(c: Campaign, gs: seq<Group>)
    requires c.name != "" && c.description != "" && c.messageContent != ""
    requires WellFormed(gs)
    ensures SaveGate(c, gs).None?
  {
    assert |gs[0].rules| >= 1;
  }

  /** The gate lets through a rule that is entirely empty, and a second group
      that has no rule at all. */
  lemma GateIgnoresRuleCompleteness(c: Campaign)
    requires c.name != "" && c.description != "" && c.messageContent != ""
    ensures SaveGate(c, InitialConditions).None? && InitialConditions[0].rules[0] == Rule("", "", "")
    ensures SaveGate(c, [NewGroup, Group("OR", [])]).None?
  {
  }

  /** The identifier a create call produced, or the error that stops the save:
      the call's own error, or the one thrown for a body without a (truthy) `_id`. */
  function CreatedId(reply: Reply<Option<Created>>, what: string): (r: Try<string>)
    ensures r.Returned? <==> reply.Ok? && reply.data.Some? && Truthy(reply.data.value.id)
    ensures r.Returned? ==> r.value == reply.data.value.id.value && r.value != ""
    ensures reply.Fail? ==> r == Thrown(reply.err)
    ensures reply.Ok? && r.Thrown? ==> r.error == HttpError(None, None, "Failed to create " + what)
  {
    match reply
    case Fail(e) => Thrown(e)
    case Ok(body) =>
      if body.Some? && Truthy(body.value.id) then Returned(body.value.id.value)
      else Thrown(HttpError(None, None, "Failed to create " + what))
  }

  /** `err.response?.data?.error || err.message || 'Failed to save campaign'`. */
  function SaveErrorMessage(e: HttpError): (m: string)
    ensures m != ""
    ensures e.response.Some? && Truthy(e.response.value.error) ==> m == e.response.value.error.value
    ensures !(e.response.Some? && Truthy(e.response.value.error)) && e.message != "" ==> m == e.message
    ensures !(e.response.Some? && Truthy(e.response.value.error)) && e.message == "" ==> m == SaveFallbackError
  {
    if e.response.Some? && Truthy(e.response.value.error) then e.response.value.error.value
    else if e.message != "" then e.message
    else SaveFallbackError
  }

  /** What one save does: the calls it issues and the error it ends with. */
  datatype SaveOutcome = SaveOutcome(calls: seq<Request>, error: Option<string>)

  /** The save sequence of `handleSave`, given the two create calls' outcomes. */
  function SavePlan(c: Campaign, gs: seq<Group>, segment: Reply<Option<Created>>,
                    created: Reply<Option<Created>>): (o: SaveOutcome)
    ensures |o.calls| <= 2
    ensures SaveGate(c, gs).Some? <==> o.calls == []
    ensures SaveGate(c, gs).Some? ==> o.error == SaveGate(c, gs)
    ensures o.calls != [] ==> o.calls[0] == CreateSegment(c.name + " Segment", c.description, gs)
    ensures |o.calls| == 2 <==> SaveGate(c, gs).None? && CreatedId(segment, "segment").Returned?
    ensures |o.calls| == 2 ==>
      o.calls[1] == CreateFromSegment(CreatedId(segment, "segment").value, c.name, c.description, c.messageContent)
    ensures |o.calls| == 1 ==> o.error == Some(SaveErrorMessage(CreatedId(segment, "segment").error))
    ensures |o.calls| == 2 && CreatedId(created, "campaign").Thrown? ==>
      o.error == Some(SaveErrorMessage(CreatedId(created, "campaign").error))
    ensures o.error.None? <==>
      SaveGate(c, gs).None? && CreatedId(segment, "segment").Returned? && CreatedId(created, "campaign").Returned?
  {
    match SaveGate(c, gs)
    case Some(e) => SaveOutcome([], Some(e))
    case None =>
      var first := CreateSegment(c.name + " Segment", c.description, gs);
      match CreatedId(segment, "segment")
      case Thrown(e) => SaveOutcome([first], Some(SaveErrorMessage(e)))
      case Returned(segmentId) =>
        var calls := [first, CreateFromSegment(segmentId, c.name, c.description, c.messageContent)];
        match CreatedId(created, "campaign")
        case Thrown(e) => SaveOutcome(calls, Some(SaveErrorMessage(e)))
        case Returned(_) => SaveOutcome(calls, None)
  }

  /** The save is not transactional: when the campaign call fails, the segment
      has already been created, the save ends with the error, and the two create
      calls are all it issued, so no later call undoes the segment. */
  lemma FailedCampaignLeavesSegment(c: Campaign, gs: seq<Group>, segment: Reply<Option<Created>>,
                                    created: Reply<Option<Created>>)
    requires SaveGate(c, gs).None? && CreatedId(segment, "segment").Returned?
    requires CreatedId(created, "campaign").Thrown?
    ensures var o := SavePlan(c, gs, segment, created);
      o.error.Some?
      && o.calls == [CreateSegment(c.name + " Segment", c.description, gs),
                     CreateFromSegment(CreatedId(segment, "segment").value, c.name, c.description, c.messageContent)]
  {
  }

  // ---------------------------------------------------------------------------
  // Message clean-up and the suggestion audience type
  // ---------------------------------------------------------------------------

  const Greeting := "Hi {{customerName}}"
  const DoubledGreeting := "Hi {{customerName}}, Hi {{customerName}}"

  /** The clean-up applied to a typed message and to a chosen suggestion: the
      FIRST doubled greeting becomes a single one; everything before and after
      it is kept, and text without a doubled greeting is kept as it is. */
  function CleanMessage(v: string): (r: string)
    ensures !Includes(v, DoubledGreeting) ==> r == v
    ensures Includes(v, DoubledGreeting) ==>
      var i := IndexOf(v, DoubledGreeting).value;
      |r| == |v| - 21 && r[..i] == v[..i] && r[i..i + 19] == Greeting && r[i + 19..] == v[i + 40..]
  {
    if Includes(v, DoubledGreeting) then ReplaceFirst(v, DoubledGreeting, Greeting) else v
  }

  /** A message that starts with a doubled greeting loses only its second greeting. */
  lemma CleanLeadingDouble(rest: string)
    ensures CleanMessage(DoubledGreeting + rest) == Greeting + rest
  {
    var t := DoubledGreeting + rest;
    assert t[0..|DoubledGreeting|] == DoubledGreeting;
    assert OccursAt(t, DoubledGreeting, 0);
    assert t[40..] == rest;
  }

  /** Only the first occurrence is replaced, so a tripled greeting comes out
      doubled, and cleaning that once more changes it again. */
  lemma CleanMessageKeepsLaterDuplicates()
    ensures CleanMessage(DoubledGreeting + ", " + Greeting) == DoubledGreeting
    ensures CleanMessage(DoubledGreeting) == Greeting
  {
    assert Greeting + (", " + Greeting) == DoubledGreeting;
    CleanLeadingDouble(", " + Greeting);
    assert DoubledGreeting + ", " + Greeting == DoubledGreeting + (", " + Greeting);
    CleanLeadingDouble("");
    assert DoubledGreeting + "" == DoubledGreeting;
  }

  /** The audience type sent with a suggestion request, read off the first
      rule of the first group. */
  function AudienceType(gs: seq<Group>): (a: string)
    ensures a == "Inactive Customers" <==>
      |gs| > 0 && |gs[0].rules| > 0 && gs[0].rules[0].field == "lastPurchase"
    ensures a == "High-Value Customers" <==>
      |gs| > 0 && |gs[0].rules| > 0 && gs[0].rules[0].field == "totalSpend"
    ensures a == "General Audience" <==>
      |gs| == 0 || |gs[0].rules| == 0 || gs[0].rules[0].field !in {"lastPurchase", "totalSpend"}
  {
    if |gs| > 0 && |gs[0].rules| > 0 then
      var first := gs[0].rules[0];
      if first.field == "lastPurchase" then "Inactive Customers"
      else if first.field == "totalSpend" then "High-Value Customers"
      else "General Audience"
    else "General Audience"
  }

  const FetchCampaignError := "Failed to fetch campaign details"
  const PreviewError := "Failed to preview audience size. Please check your rules."
  const SuggestionsError := "Failed to generate message suggestions"
  const ConvertError := "Failed to convert natural language to rules. Please try a different description."
  const ConvertedMessage := "Successfully converted to segment rules!"

  // ---------------------------------------------------------------------------
  // The screen's state and its handlers
  // ---------------------------------------------------------------------------

  class Builder {
    /** The route's campaign id, if the screen edits an existing campaign. */
    const id: Option<string>
    var campaign: Campaign
    var conditions: seq<Group>
    var loading: bool
    var error: Option<string>
    var success: Option<string>
    var previewLoading: bool
    var audienceSize: Option<int>
    var suggestions: seq<string>
    var generatingSuggestions: bool
    var campaignObjective: string
    var naturalLanguageInput: string
    var convertingRules: bool
    /** The route `navigate` was last called with. */
    var navigatedTo: Option<string>
    /** Every network call issued so far, oldest first. */
    var requests: seq<Request>

    constructor (id: Option<string>)
      ensures this.id == id && campaign == InitialCampaign && conditions == InitialConditions
      ensures !loading && error.None? && success.None? && !previewLoading && audienceSize.None?
      ensures suggestions == [] && !generatingSuggestions && campaignObjective == ""
      ensures naturalLanguageInput == "" && !convertingRules && navigatedTo.None? && requests == []
    {
      this.id := id;
      campaign := InitialCampaign;
      conditions := InitialConditions;
      loading, error, success := false, None, None;
      previewLoading, audienceSize := false, None;
      suggestions, generatingSuggestions, campaignObjective := [], false, "";
      naturalLanguageInput, convertingRules := "", false;
      navigatedTo, requests := None, [];
    }

    /** `fetchCampaign`, run when the route carries an id. */
    method FetchCampaign(reply: Reply<Campaign>)
      requires id.Some?
      modifies this`campaign, this`error, this`requests
      ensures requests == old(requests) + [GetCampaign(id.value)]
      ensures reply.Ok? ==> campaign == reply.data && error == old(error)
      ensures reply.Fail? ==> campaign == old(campaign) && error == Some(FetchCampaignError)
    {
      requests := requests + [GetCampaign(id.value)];
      match reply {
        case Ok(c) => campaign := c;
        case Fail(_) => error := Some(FetchCampaignError);
      }
    }

    /** `handleInputChange`: a typed message is cleaned up first. */
    method HandleInputChange(field: CampaignField, value: string)
      modifies this`campaign
      ensures field == Name ==> campaign == old(campaign).(name := value)
      ensures field == Description ==> campaign == old(campaign).(description := value)
      ensures field == MessageContent ==> campaign == old(campaign).(messageContent := CleanMessage(value))
    {
      if field == MessageContent {
        var cleaned := value;
        if Includes(cleaned, DoubledGreeting) {
          cleaned := ReplaceFirst(cleaned, DoubledGreeting, Greeting);
        }
        campaign := campaign.(messageContent := cleaned);
      } else if field == Name {
        campaign := campaign.(name := value);
      } else {
        campaign := campaign.(description := value);
      }
    }

    method HandleConditionGroupChange(g: nat, value: string)
      requires g < |conditions|
      modifies this`conditions
      ensures conditions == SetCombinator(old(conditions), g, value)
    {
      var group := conditions[g];
      conditions := conditions[g := group.(operator := value)];
    }

    method HandleRuleChange(g: nat, k: nat, key: RuleKey, value: string)
      requires g < |conditions| && k < |conditions[g].rules|
      modifies this`conditions
      ensures conditions == SetRule(old(conditions), g, k, key, value)
    {
      var group := conditions[g];
      var rules := group.rules;
      rules := rules[k := SetRuleProperty(rules[k], key, value)];
      conditions := conditions[g := group.(rules := rules)];
    }

    method AddConditionGroup()
      modifies this`conditions
      ensures conditions == AppendGroup(old(conditions))
    {
      conditions := conditions + [Group("AND", [Rule("", "", "")])];
    }

    /** Reachable only while the delete button is enabled: more than one group. */
    method RemoveConditionGroup(i: nat)
      requires 1 < |conditions| && i < |conditions|
      modifies this`conditions
      ensures conditions == DeleteGroup(old(conditions), i)
      ensures old(WellFormed(conditions)) ==> WellFormed(conditions)
    {
      conditions := conditions[..i] + conditions[i + 1..];
    }

    method AddRule(g: nat)
      requires g < |conditions|
      modifies this`conditions
      ensures conditions == AppendRule(old(conditions), g)
    {
      var group := conditions[g];
      conditions := conditions[g := group.(rules := group.rules + [Rule("", "", "")])];
    }

    /** Reachable only while the delete button is enabled: the group has more than one rule. */
    method RemoveRule(g: nat, k: nat)
      requires g < |conditions| && 1 < |conditions[g].rules| && k < |conditions[g].rules|
      modifies this`conditions
      ensures conditions == DeleteRule(old(conditions), g, k)
      ensures old(WellFormed(conditions)) ==> WellFormed(conditions)
    {
      var group := conditions[g];
      conditions := conditions[g := group.(rules := group.rules[..k] + group.rules[k + 1..])];
    }

    /** `previewAudience`: a failure leaves the rules being edited as they are. */
    method PreviewAudience(reply: Reply<int>)
      modifies this`previewLoading, this`error, this`audienceSize, this`requests
      ensures requests == old(requests) + [PreviewSegment(conditions)]
      ensures !previewLoading
      ensures reply.Ok? ==> audienceSize == Some(reply.data) && error.None?
      ensures reply.Fail? ==> audienceSize == old(audienceSize) && error == Some(PreviewError)
    {
      previewLoading := true;
      error := None;
      requests := requests + [PreviewSegment(conditions)];
      match reply {
        case Ok(n) => audienceSize := Some(n);
        case Fail(_) => error := Some(PreviewError);
      }
      previewLoading := false;
    }

    /** `handleSave`, given the outcomes of the segment and campaign create calls. */
    method HandleSave(segment: Reply<Option<Created>>, created: Reply<Option<Created>>)
      modifies this`loading, this`error, this`success, this`requests, this`navigatedTo
      ensures var o := SavePlan(campaign, conditions, segment, created);
        requests == old(requests) + o.calls && error == o.error && !loading
        && (o.error.None? ==> success == Some(SavedMessage) && navigatedTo == Some("/campaigns"))
        && (o.error.Some? ==> success.None? && navigatedTo == old(navigatedTo))
    {
      loading := true;
      error := None;
      success := None;
      if campaign.name == "" || campaign.description == "" || campaign.messageContent == "" {
        error := Some(FillFieldsError);
        loading := false;
        return;
      }
      if |conditions| == 0 || |conditions[0].rules| == 0 {
        error := Some(NoRulesError);
        loading := false;
        return;
      }
      requests := requests + [CreateSegment(campaign.name + " Segment", campaign.description, conditions)];
      var segmentId := CreatedId(segment, "segment");
      if segmentId.Thrown? {
        error := Some(SaveErrorMessage(segmentId.error));
        success := None;
        loading := false;
        return;
      }
      requests := requests + [CreateFromSegment(segmentId.value, campaign.name, campaign.description,
                                                campaign.messageContent)];
      var campaignId := CreatedId(created, "campaign");
      if campaignId.Thrown? {
        error := Some(SaveErrorMessage(campaignId.error));
        success := None;
        loading := false;
        return;
      }
      success := Some(SavedMessage);
      navigatedTo := Some("/campaigns");
      loading := false;
    }

    method SetCampaignObjective(value: string)
      modifies this`campaignObjective
      ensures campaignObjective == value
    {
      campaignObjective := value;
    }

    method SetNaturalLanguageInput(value: string)
      modifies this`naturalLanguageInput
      ensures naturalLanguageInput == value
    {
      naturalLanguageInput := value;
    }

    /** `generateMessageSuggestions`: the request carries the derived audience type. */
    method GenerateMessageSuggestions(reply: Reply<seq<string>>)
      modifies this`generatingSuggestions, this`error, this`suggestions, this`requests
      ensures requests == old(requests) + [GenerateSuggestions(campaignObjective, AudienceType(conditions))]
      ensures !generatingSuggestions
      ensures reply.Ok? ==> suggestions == reply.data && error.None?
      ensures reply.Fail? ==> suggestions == old(suggestions) && error == Some(SuggestionsError)
    {
      generatingSuggestions := true;
      error := None;
      var audienceType := "General Audience";
      if |conditions| > 0 && |conditions[0].rules| > 0 {
        var firstRule := conditions[0].rules[0];
        if firstRule.field == "lastPurchase" {
          audienceType := "Inactive Customers";
        } else if firstRule.field == "totalSpend" {
          audienceType := "High-Value Customers";
        }
      }
      requests := requests + [GenerateSuggestions(campaignObjective, audienceType)];
      match reply {
        case Ok(s) => suggestions := s;
        case Fail(_) => error := Some(SuggestionsError);
      }
      generatingSuggestions := false;
    }

    /** `handleSuggestionClick`: the chosen text, cleaned, becomes the message. */
    method HandleSuggestionClick(suggestion: string)
      modifies this`campaign, this`suggestions
      ensures campaign == old(campaign).(messageContent := CleanMessage(suggestion))
      ensures suggestions == []
    {
      var cleaned := suggestion;
      if Includes(cleaned, DoubledGreeting) {
        cleaned := ReplaceFirst(cleaned, DoubledGreeting, Greeting);
      }
      campaign := campaign.(messageContent := cleaned);
      suggestions := [];
    }

    /** `handleNaturalLanguageConvert`: the reply's `rules`, when present, replace
        the groups wholesale, so this is the one handler that can leave them
        not well-formed (an empty list is accepted). */
    method HandleNaturalLanguageConvert(reply: Reply<Option<seq<Group>>>)
      modifies this`convertingRules, this`error, this`success, this`conditions, this`requests
      ensures requests == old(requests) + [ConvertRules(naturalLanguageInput)]
      ensures !convertingRules
      ensures reply.Ok? && reply.data.Some? ==>
        conditions == reply.data.value && success == Some(ConvertedMessage) && error.None?
      ensures !(reply.Ok? && reply.data.Some?) ==>
        conditions == old(conditions) && success == old(success) && error == Some(ConvertError)
    {
      convertingRules := true;
      error := None;
      requests := requests + [ConvertRules(naturalLanguageInput)];
      if reply.Ok? && reply.data.Some? {
        conditions := reply.data.value;
        success := Some(ConvertedMessage);
      } else {
        error := Some(ConvertError);
      }
      convertingRules := false;
    }
  }
}
