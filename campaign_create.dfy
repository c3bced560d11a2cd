/** The campaign creation page: the form fields, the segment tree it hands
    to the rule builder, the validation gate in front of the create call, and
    the natural-language rule generation. Server calls are recorded in an
    outbox; their answers arrive later as separate events. */
module CampaignCreate {
  import opened Common
  import opened RuleTree

  /** The characters `String.prototype.trim` removes: the white space and
      line terminator code points of ECMAScript (section 12.2 and 12.3 of
      ECMA-262), including the Unicode space separators. In the ASCII range
      they are the space and the controls from tab to carriage return. */
  predicate IsSpace(c: char)
    ensures c < '\U{0080}' ==> (IsSpace(c) <==> c == ' ' || '\t' <= c <= '\r')
  {
    || c == '\t' || c == '\U{000B}' || c == '\U{000C}' || c == ' ' || c == '\U{00A0}' || c == '\U{FEFF}'
    || c == '\n' || c == '\r' || c == '\U{2028}' || c == '\U{2029}'
    || c == '\U{1680}' || ('\U{2000}' <= c <= '\U{200A}') || c == '\U{202F}' || c == '\U{205F}' || c == '\U{3000}'
  }

  /** `s` without its leading white space. */
  function TrimStart(s: string): (r: string)
  {
    if s != [] && IsSpace(s[0]) then TrimStart(s[1..]) else s
  }

  /** `s` without its trailing white space. */
  function TrimEnd(s: string): (r: string)
  {
    if s != [] && IsSpace(s[|s| - 1]) then TrimEnd(s[..|s| - 1]) else s
  }

  /** `s.trim()` */
  function Trim(s: string): (r: string)
  {
    TrimEnd(TrimStart(s))
  }

  /** `TrimStart` drops a prefix made of white space, up to the first other
      character. */
  lemma {:induction false} TrimStartDropsSpace(s: string)
    ensures var r := TrimStart(s);
      && |r| <= |s| && r == s[|s| - |r|..]
      && (forall i :: 0 <= i < |s| - |r| ==> IsSpace(s[i]))
      && (r != [] ==> !IsSpace(r[0]))
    decreases |s|
  {
    if s != [] && IsSpace(s[0]) {
      TrimStartDropsSpace(s[1..]);
      var r := TrimStart(s);
      forall i | 0 <= i < |s| - |r|
        ensures IsSpace(s[i])
      {
        if i > 0 {
          assert s[i] == s[1..][i - 1];
        }
      }
    }
  }

  /** `TrimEnd` drops a suffix made of white space, back to the last other
      character. */
  lemma {:induction false} TrimEndDropsSpace(s: string)
    ensures var r := TrimEnd(s);
      && |r| <= |s| && r == s[..|r|]
      && (forall i :: |r| <= i < |s| ==> IsSpace(s[i]))
      && (r != [] ==> !IsSpace(r[|r| - 1]))
    decreases |s|
  {
    if s != [] && IsSpace(s[|s| - 1]) {
      TrimEndDropsSpace(s[..|s| - 1]);
      var r := TrimEnd(s);
      forall i | |r| <= i < |s|
        ensures IsSpace(s[i])
      {
        if i < |s| - 1 {
          assert s[i] == s[..|s| - 1][i];
        }
      }
    }
  }

  /** `trim` keeps one contiguous piece of the text, cut only through white
      space, and neither end of that piece is white space. */
  lemma TrimKeepsMiddle(s: string)
    ensures var t := Trim(s); var k := |s| - |TrimStart(s)|;
      && 0 <= k && k + |t| <= |s| && t == s[k..k + |t|]
      && (forall i :: 0 <= i < k ==> IsSpace(s[i]))
      && (forall i :: k + |t| <= i < |s| ==> IsSpace(s[i]))
      && (t != [] ==> !IsSpace(t[0]) && !IsSpace(t[|t| - 1]))
  {
    TrimStartDropsSpace(s);
    var u := TrimStart(s);
    TrimEndDropsSpace(u);
    var t := Trim(s);
    var k := |s| - |u|;
    assert t == u[..|t|];
    forall i | k + |t| <= i < |s|
      ensures IsSpace(s[i])
    {
      assert s[i] == u[i - k];
    }
    if t != [] {
      assert t[0] == u[0];
    }
  }

  /** A query trims to nothing exactly when it is empty or all white space. */
  lemma TrimEmptyIffBlank(s: string)
    ensures |Trim(s)| == 0 <==> forall i :: 0 <= i < |s| ==> IsSpace(s[i])
  {
    TrimStartDropsSpace(s);
    var t := TrimStart(s);
    TrimEndDropsSpace(t);
    if |Trim(s)| == 0 {
      // all of `t` is white space, and `t` cannot start with any
      assert t == [];
    } else {
      var k := |s| - |t|;
      assert t != [] && !IsSpace(t[0]);
      assert s[k] == t[0];
    }
  }

  /** How `handleCreateCampaign` ends up after its validation expression
      `!campaignName || !messageTemplate || !segmentRules.rules.length`,
      evaluated left to right: refused with a modal, failed with a
      TypeError (the tree has no `rules` array), or accepted. */
  datatype Gate = Refuse | Fault | Accept

  /** The gate, from the name, the template and the length of the tree's
      top-level `rules` if it has the array. The description plays no part,
      and nested rules are not looked at. */
  function CreateGate(name: string, template: string, topLevel: Option<nat>): (r: Gate)
    ensures r == Accept <==> name != "" && template != "" && topLevel.Some? && topLevel.value > 0
    ensures r == Fault <==> name != "" && template != "" && topLevel.None?
    ensures r == Refuse <==> name == "" || template == "" || (topLevel.Some? && topLevel.value == 0)
  {
    if name == "" || template == "" then Refuse
    else if topLevel.None? then Fault
    else if topLevel.value == 0 then Refuse
    else Accept
  }

  /** `campaignData`: what `crmApi.createCampaign` is given. */
  datatype Campaign = Campaign(name: string, description: string, messageTemplate: string,
                               segmentRules: Node, status: string)

  /** What the rule generation call answered: a response body with its
      `success`, `segmentRules` (null when missing), `audienceSize` and
      `message`, or a thrown error with `error.response.data.message`. */
  datatype AIReply =
    | Answered(success: bool, rules: Node?, size: int, message: Option<string>)
    | CallFailed(message: Option<string>)

  const ValidationError: Modal :=
    Modal("Validation Error", "Please fill in all required fields and define at least one segmentation rule.", Error)
  const CreatedModal: Modal :=
    Modal("Success", "Campaign created successfully! Delivery simulation initiated.", Success)
  const InputRequired: Modal :=
    Modal("Input Required", "Please enter a natural language query to generate rules.", Info)
  const GeneratedModal: Modal :=
    Modal("AI Success", "Segment rules generated successfully!", Success)

  /** The error text and modal after a failed create call. */
  function CreateFailure(reply: Reply): (r: string)
    requires !reply.Succeeded?
    ensures reply.Rejected? ==> r == OrDefault(reply.message, "Failed to create campaign.")
    ensures reply.Threw? ==> r == OrDefault(reply.message, "An unexpected error occurred.")
  {
    if reply.Rejected? then OrDefault(reply.message, "Failed to create campaign.")
    else OrDefault(reply.message, "An unexpected error occurred.")
  }

  /** The rule generation answer takes effect only when it is a success
      that carries a tree. */
  predicate Adopted(reply: AIReply)
  {
    reply.Answered? && reply.success && reply.rules != null
  }

  /** The error text after a rule generation answer that is not adopted. */
  function AIFailure(reply: AIReply): (r: string)
    requires !Adopted(reply)
    ensures reply.Answered? ==> r == OrDefault(reply.message, "Failed to generate rules from AI.")
    ensures reply.CallFailed? ==> r == OrDefault(reply.message, "Error communicating with AI service.")
  {
    if reply.Answered? then OrDefault(reply.message, "Failed to generate rules from AI.")
    else OrDefault(reply.message, "Error communicating with AI service.")
  }

  /** The page component's state. */
  class CampaignPage {
    var campaignName: string
    var description: string
    var messageTemplate: string
    var segmentRules: Node
    var audienceSize: int
    var loading: bool
    var error: Option<string>
    var showModal: bool
    var modalContent: Modal
    var naturalLanguageQuery: string
    var generatingRules: bool
    var aiError: Option<string>
    /** The payloads given to `crmApi.createCampaign`, oldest first. */
    var created: seq<Campaign>
    /** Create calls not yet answered. */
    var creating: nat
    /** The queries given to `crmApi.generateSegmentRulesFromAI`, oldest first. */
    var queries: seq<string>
    /** Rule generation calls not yet answered. */
    var generating: nat
    /** Set once a successful create has scheduled the move to the campaign list. */
    var redirectScheduled: bool

    /** The first render: empty fields and the tree `{ operator: 'AND', rules: [] }`. */
    constructor Open()
      ensures campaignName == "" && description == "" && messageTemplate == ""
      ensures fresh(segmentRules) && fresh(segmentRules.rules)
      ensures segmentRules.attrs == GroupAttrs("AND") && segmentRules.rules != null && segmentRules.rules.items == []
      ensures audienceSize == 0 && !loading && error == None && !showModal && modalContent == NoModal
      ensures naturalLanguageQuery == "" && !generatingRules && aiError == None
      ensures created == [] && creating == 0 && queries == [] && generating == 0 && !redirectScheduled
    {
      campaignName := "";
      description := "";
      messageTemplate := "";
      segmentRules := new Node.Group("AND");
      audienceSize := 0;
      loading := false;
      error := None;
      showModal := false;
      modalContent := NoModal;
      naturalLanguageQuery := "";
      generatingRules := false;
      aiError := None;
      created := [];
      creating := 0;
      queries := [];
      generating := 0;
      redirectScheduled := false;
    }

    /** The rule builder's `onRulesChange`: the page takes the edited tree. */
    method RulesChanged(rules: Node)
      modifies this`segmentRules
      ensures segmentRules == rules
    {
      segmentRules := rules;
    }

    /** The rule builder's `onAudienceSizeChange`. */
    method AudienceSizeChanged(size: int)
      modifies this`audienceSize
      ensures audienceSize == size
    {
      audienceSize := size;
    }

    /** `handleCreateCampaign(e)` up to the create call. A refusal shows the
        validation modal and sends nothing; a tree without a `rules` array
        throws after `loading` was set, which leaves it set; otherwise the
        payload with the current tree and status `'sent'` is sent. */
    method CreateCampaign() returns (gate: Gate)
      modifies this`loading, this`error, this`modalContent, this`showModal, this`created, this`creating
      ensures gate == CreateGate(campaignName, messageTemplate, TopLevel(segmentRules))
      ensures error == None
      ensures gate == Refuse ==>
        && modalContent == ValidationError && showModal && !loading
        && created == old(created) && creating == old(creating)
      ensures gate == Fault ==>
        && modalContent == old(modalContent) && showModal == old(showModal) && loading
        && created == old(created) && creating == old(creating)
      ensures gate == Accept ==>
        && modalContent == old(modalContent) && showModal == old(showModal) && loading
        && created == old(created) + [Campaign(campaignName, description, messageTemplate, segmentRules, "sent")]
        && creating == old(creating) + 1
    {
      loading := true;
      error := None;
      gate := CreateGate(campaignName, messageTemplate, TopLevel(segmentRules));
      if gate == Refuse {
        modalContent := ValidationError;
        showModal := true;
        loading := false;
      } else if gate == Accept {
        created := created + [Campaign(campaignName, description, messageTemplate, segmentRules, "sent")];
        creating := creating + 1;
      }
    }

    /** A create call is answered. */
    method CreateResponded(reply: Reply)
      requires creating > 0
      modifies this`loading, this`error, this`modalContent, this`showModal, this`creating, this`redirectScheduled
      ensures showModal && !loading && creating == old(creating) - 1
      ensures reply.Succeeded? ==>
        modalContent == CreatedModal && error == old(error) && redirectScheduled
      ensures !reply.Succeeded? ==>
        && error == Some(CreateFailure(reply)) && modalContent == Modal("Error", CreateFailure(reply), Error)
        && redirectScheduled == old(redirectScheduled)
    {
      if reply.Succeeded? {
        modalContent := CreatedModal;
        showModal := true;
        redirectScheduled := true;
      } else {
        var m := CreateFailure(reply);
        error := Some(m);
        modalContent := Modal("Error", m, Error);
        showModal := true;
      }
      loading := false;
      creating := creating - 1;
    }

    /** `handleGenerateRulesFromAI()` up to the call: a query that trims to
        nothing shows a modal and sends nothing. */
    method GenerateRules() returns (sent: bool)
      modifies this`modalContent, this`showModal, this`generatingRules, this`aiError, this`queries, this`generating
      ensures sent <==> |Trim(naturalLanguageQuery)| != 0
      ensures !sent ==>
        && modalContent == InputRequired && showModal
        && generatingRules == old(generatingRules) && aiError == old(aiError)
        && queries == old(queries) && generating == old(generating)
      ensures sent ==>
        && modalContent == old(modalContent) && showModal == old(showModal)
        && generatingRules && aiError == None
        && queries == old(queries) + [naturalLanguageQuery] && generating == old(generating) + 1
    {
      var trimmed := Trim(naturalLanguageQuery);
      sent := |trimmed| != 0;
      if !sent {
        modalContent := InputRequired;
        showModal := true;
      } else {
        generatingRules := true;
        aiError := None;
        queries := queries + [naturalLanguageQuery];
        generating := generating + 1;
      }
    }

    /** A rule generation call is answered: the tree and the audience size
        are replaced only by a success that carries a tree, and the page
        stops showing that rules are being generated whatever the answer. */
    method AIResponded(reply: AIReply)
      requires generating > 0
      modifies this`segmentRules, this`audienceSize, this`aiError, this`modalContent, this`showModal,
               this`generatingRules, this`generating
      ensures showModal && !generatingRules && generating == old(generating) - 1
      ensures Adopted(reply) ==>
        && segmentRules == reply.rules && audienceSize == reply.size
        && modalContent == GeneratedModal && aiError == old(aiError)
      ensures !Adopted(reply) ==>
        && segmentRules == old(segmentRules) && audienceSize == old(audienceSize)
        && aiError == Some(AIFailure(reply)) && modalContent == Modal("AI Error", AIFailure(reply), Error)
    {
      if Adopted(reply) {
        segmentRules := reply.rules;
        audienceSize := reply.size;
        modalContent := GeneratedModal;
        showModal := true;
      } else {
        var m := AIFailure(reply);
        aiError := Some(m);
        modalContent := Modal("AI Error", m, Error);
        showModal := true;
      }
      generatingRules := false;
      generating := generating - 1;
    }
  }

  /** Only the top level is counted: a tree whose one child is an empty
      group, or a condition nobody filled in, passes the gate. */
  method ShallowValidation(name: string, template: string, childIsGroup: bool)
    returns (p: CampaignPage, gate: Gate)
    requires name != "" && template != ""
    ensures gate == Accept && |p.created| == 1
    ensures p.created[0].segmentRules.rules != null && |p.created[0].segmentRules.rules.items| == 1
    ensures var c := p.created[0].segmentRules.rules.items[0];
      && c.attrs == (if childIsGroup then GroupAttrs("AND") else DraftAttrs)
      && (if childIsGroup then c.rules != null && c.rules.items == [] else c.rules == null)
  {
    p := new CampaignPage.Open();
    p.campaignName := name;
    p.messageTemplate := template;
    var child: Node;
    if childIsGroup {
      child := new Node.Group("AND");
    } else {
      child := new Node.Draft();
    }
    p.segmentRules.rules.items := [child];
    gate := p.CreateCampaign();
  }
}
