/** The audience preview of the rule builder: a small state machine over the
    builder's own copy of the tree, a debounce timer and the preview request.
    Time is a parameter of each event (milliseconds since an arbitrary
    origin); the pending `setTimeout` is a deadline, `clearTimeout` drops it,
    and each `crmApi.getAudiencePreview` call is recorded in an outbox whose
    answer arrives later as a separate event. */
module AudiencePreview {
  import opened Common
  import opened RuleTree

  /** The delay of the debounce timer. */
  const DebounceMs: nat := 500

  const RejectedFallback: string := "Failed to get audience preview."
  const ThrewFallback: string := "Error fetching audience preview."

  /** How `fetchAudiencePreview` begins: clear the preview and stop (`Skip`),
      fail with a TypeError before touching any state (`Fault`: the tree has
      an operator but no `rules` array), or send the request (`Send`). */
  datatype Start = Skip | Fault | Send

  /** The guard `!internalRules || !internalRules.operator ||
      !internalRules.rules.length`, evaluated left to right. */
  function StartFor(present: bool, operator: string, topLevel: Option<nat>): (r: Start)
    ensures r == Send <==> present && operator != "" && topLevel.Some? && topLevel.value > 0
    ensures r == Fault <==> present && operator != "" && topLevel.None?
  {
    if !present || operator == "" then Skip
    else if topLevel.None? then Fault
    else if topLevel.value == 0 then Skip
    else Send
  }

  /** `StartFor` on the builder's tree as it is in the heap now. */
  function StartOf(rules: Node?): (r: Start)
    reads if rules == null then {} else {rules}, if rules == null || rules.rules == null then {} else {rules.rules}
    ensures r == Send <==> rules != null && IsGroup(rules) && rules.rules != null && |rules.rules.items| > 0
    ensures r == Fault <==> rules != null && IsGroup(rules) && rules.rules == null
  {
    if rules == null then Skip else StartFor(true, rules.attrs.operator, TopLevel(rules))
  }

  /** What the preview request answered: `success` with a size and sample
      e-mails, `success: false` with an optional message, or a thrown error
      with an optional `error.response.data.message`. */
  datatype PreviewReply =
    | Found(size: int, emails: seq<string>)
    | Refused(message: Option<string>)
    | Failed(message: Option<string>)

  /** The rule builder component's state. */
  class Preview {
    var internalRules: Node?
    var audienceSize: int
    var sampleEmails: seq<string>
    var loadingAudience: bool
    var audienceError: Option<string>
    /** When the pending debounce timer fires, if one is pending. */
    var deadline: Option<nat>
    /** The time of the latest event. */
    var now: nat
    /** The trees passed to `crmApi.getAudiencePreview`, oldest first. */
    var requests: seq<Node?>
    /** Requests sent and not yet answered. */
    var inFlight: nat
    /** The arguments of every `onRulesChange` call. */
    var rulesReported: seq<Node?>
    /** The arguments of every `onAudienceSizeChange` call. */
    var sizesReported: seq<int>

    /** A pending timer lies in the future. */
    predicate Valid()
      reads this
    {
      deadline.Some? ==> now <= deadline.value
    }

    /** The first render at time `t`: the initial state, and the debounce
        effect schedules its first timer. */
    constructor Mount(rules: Node?, t: nat)
      ensures Valid()
      ensures internalRules == rules && audienceSize == 0 && sampleEmails == []
      ensures !loadingAudience && audienceError == None
      ensures deadline == Some(t + DebounceMs) && now == t
      ensures requests == [] && inFlight == 0 && rulesReported == [] && sizesReported == []
    {
      internalRules := rules;
      audienceSize := 0;
      sampleEmails := [];
      loadingAudience := false;
      audienceError := None;
      deadline := Some(t + DebounceMs);
      now := t;
      requests := [];
      inFlight := 0;
      rulesReported := [];
      sizesReported := [];
    }

    /** The pending timer fires and runs `fetchAudiencePreview` on the
        current tree. */
    method Fire()
      requires Valid() && deadline.Some?
      modifies this
      ensures Valid()
      ensures now == old(deadline.value) && deadline == None
      ensures internalRules == old(internalRules) && rulesReported == old(rulesReported)
      ensures sizesReported == old(sizesReported)
      // an empty or missing tree clears the preview and sends nothing
      ensures old(StartOf(internalRules)) == Skip ==>
        && audienceSize == 0 && sampleEmails == [] && audienceError == None
        && loadingAudience == old(loadingAudience)
        && requests == old(requests) && inFlight == old(inFlight)
      // a group without an array throws before any state changes
      ensures old(StartOf(internalRules)) == Fault ==>
        && audienceSize == old(audienceSize) && sampleEmails == old(sampleEmails)
        && audienceError == old(audienceError) && loadingAudience == old(loadingAudience)
        && requests == old(requests) && inFlight == old(inFlight)
      // otherwise the current tree is sent and the preview shows it is loading
      ensures old(StartOf(internalRules)) == Send ==>
        && audienceSize == old(audienceSize) && sampleEmails == old(sampleEmails)
        && audienceError == None && loadingAudience
        && requests == old(requests) + [internalRules] && inFlight == old(inFlight) + 1
    {
      now := deadline.value;
      deadline := None;
      var start := StartOf(internalRules);
      if start == Skip {
        audienceSize := 0;
        sampleEmails := [];
        audienceError := None;
      } else if start == Send {
        loadingAudience := true;
        audienceError := None;
        requests := requests + [internalRules];
        inFlight := inFlight + 1;
      }
    }

    /** Time passes up to `t`, short of the pending deadline: nothing but
        the clock moves. (At the deadline itself the event is `Fire`.) */
    method Tick(t: nat)
      requires Valid() && now <= t
      requires deadline.None? || t < deadline.value
      modifies this
      ensures Valid() && now == t
      ensures internalRules == old(internalRules) && rulesReported == old(rulesReported)
      ensures deadline == old(deadline) && requests == old(requests) && inFlight == old(inFlight)
      ensures audienceSize == old(audienceSize) && sampleEmails == old(sampleEmails)
      ensures audienceError == old(audienceError) && loadingAudience == old(loadingAudience)
      ensures sizesReported == old(sizesReported)
    {
      now := t;
    }

    /** `handleRuleChange(newRules)` at time `t`: the builder takes the
        edited tree and reports it upward; when the tree object changed, the
        debounce effect clears the pending timer and starts a new one. */
    method Edit(newRules: Node, t: nat)
      requires Valid() && now <= t
      requires deadline.None? || t < deadline.value
      modifies this
      ensures Valid() && now == t
      ensures internalRules == newRules && rulesReported == old(rulesReported) + [newRules]
      ensures deadline == if newRules != old(internalRules) then Some(t + DebounceMs) else old(deadline)
      ensures requests == old(requests) && inFlight == old(inFlight)
      ensures audienceSize == old(audienceSize) && sampleEmails == old(sampleEmails)
      ensures audienceError == old(audienceError) && loadingAudience == old(loadingAudience)
      ensures sizesReported == old(sizesReported)
    {
      now := t;
      if newRules != internalRules {
        deadline := Some(t + DebounceMs);
      }
      internalRules := newRules;
      rulesReported := rulesReported + [newRules];
    }

    /** A preview request is answered. The answer is applied whatever
        request it belongs to: nothing discards a stale answer. */
    method Respond(reply: PreviewReply)
      requires Valid() && inFlight > 0
      modifies this
      ensures Valid()
      ensures !loadingAudience && inFlight == old(inFlight) - 1
      ensures internalRules == old(internalRules) && rulesReported == old(rulesReported)
      ensures deadline == old(deadline) && now == old(now) && requests == old(requests)
      ensures reply.Found? ==>
        && audienceSize == reply.size && sampleEmails == reply.emails
        && sizesReported == old(sizesReported) + [reply.size]
        && audienceError == old(audienceError)
      ensures !reply.Found? ==>
        && audienceSize == old(audienceSize) && sampleEmails == old(sampleEmails)
        && sizesReported == old(sizesReported)
      ensures reply.Refused? ==> audienceError == Some(OrDefault(reply.message, RejectedFallback))
      ensures reply.Failed? ==> audienceError == Some(OrDefault(reply.message, ThrewFallback))
    {
      match reply {
        case Found(size, emails) =>
          audienceSize := size;
          sampleEmails := emails;
          sizesReported := sizesReported + [size];
        case Refused(message) =>
          audienceError := Some(OrDefault(message, RejectedFallback));
        case Failed(message) =>
          audienceError := Some(OrDefault(message, ThrewFallback));
      }
      loadingAudience := false;
      inFlight := inFlight - 1;
    }

    /** A run of edits, each less than `DebounceMs` after the one before and
        the first before the pending timer is due, each handing over a new
        tree object: no request is sent during the run, and a single timer
        is left pending for `DebounceMs` after the last edit. */
    method EditRun(trees: seq<Node>, times: seq<nat>)
      requires Valid() && deadline.Some? && |trees| == |times| > 0
      requires now <= times[0] < deadline.value
      requires forall i :: 0 < i < |times| ==> times[i - 1] <= times[i] < times[i - 1] + DebounceMs
      requires trees[0] != internalRules && forall i :: 0 < i < |trees| ==> trees[i] != trees[i - 1]
      modifies this
      ensures Valid()
      ensures internalRules == trees[|trees| - 1] && rulesReported == old(rulesReported) + trees
      ensures deadline == Some(times[|times| - 1] + DebounceMs) && now == times[|times| - 1]
      ensures requests == old(requests) && inFlight == old(inFlight)
      ensures audienceSize == old(audienceSize) && sampleEmails == old(sampleEmails)
      ensures audienceError == old(audienceError) && loadingAudience == old(loadingAudience)
    {
      var i := 0;
      while i < |trees|
        invariant 0 <= i <= |trees|
        invariant Valid() && deadline.Some?
        invariant i == 0 ==> internalRules == old(internalRules) && now == old(now) && deadline == old(deadline)
        invariant i > 0 ==> internalRules == trees[i - 1] && now == times[i - 1] && deadline == Some(times[i - 1] + DebounceMs)
        invariant rulesReported == old(rulesReported) + trees[..i]
        invariant requests == old(requests) && inFlight == old(inFlight)
        invariant audienceSize == old(audienceSize) && sampleEmails == old(sampleEmails)
        invariant audienceError == old(audienceError) && loadingAudience == old(loadingAudience)
      {
        Edit(trees[i], times[i]);
        assert trees[..i + 1] == trees[..i] + [trees[i]];
        i := i + 1;
      }
      assert trees[..i] == trees;
    }
  }

  /** Edits at 0, 100 and 200 ms on a tree with one rule: the preview is
      requested once, at 700 ms, with the last tree. */
  method DebounceScenario(first: Node, second: Node, third: Node, start: Node)
    returns (p: Preview)
    requires start != first && first != second && second != third
    requires third.attrs.operator != "" && third.rules != null && |third.rules.items| == 1
    ensures p.requests == [third] && p.now == 700 && p.deadline == None
    ensures p.rulesReported == [first, second, third]
  {
    p := new Preview.Mount(start, 0);
    p.EditRun([first, second, third], [0, 100, 200]);
    p.Tick(699);
    assert p.requests == [];
    p.Fire();
  }
}
