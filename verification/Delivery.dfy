/** Input deliveries and the string keys the driver files them under (src/driver/delivery.rs). */
module Delivery {
  import opened Base

  type Key = (string, string)

  /** The roles the driver starts deliveries in; a log can name any other. */
  datatype Role = AgentLaunch | NodePrompt | ParticipantMessage | UnknownRole(name: string)

  datatype Reason = SubmissionReceiptIncomplete | PaneReleasedAfterSubmission

  function RoleName(role: Role): string {
    match role
    case AgentLaunch => "agent_launch"
    case NodePrompt => "node_prompt"
    case ParticipantMessage => "participant_message"
    case UnknownRole(name) => name
  }

  /** A delivery whose submission is known; an ambiguous one carries a reason as well. */
  datatype Submitted = Submitted(
    activationId: string,
    paneId: string,
    generation: nat,
    role: Role,
    messageId: Option<string>,
    payloadHash: string,
    startedSeq: nat)

  datatype Ambiguous = Ambiguous(delivery: Submitted, reason: Reason)

  /** The JSON object a delivery is logged as; the sequence defaults to that of the event. */
  datatype Payload = Payload(
    activationId: string,
    paneId: string,
    generation: nat,
    role: Role,
    messageId: Option<string>,
    payloadHash: string,
    startedSeq: Option<nat>,
    reason: Reason)

  function FromPayload(p: Payload, eventSeq: nat): Ambiguous {
    Ambiguous(
      Submitted(p.activationId, p.paneId, p.generation, p.role, p.messageId, p.payloadHash,
                p.startedSeq.GetOr(eventSeq)),
      p.reason)
  }

  /** The second half of a key: role, message id if there is one, and generation. */
  function RoleKey(role: string, messageId: Option<string>, generation: nat): string {
    match messageId
    case Some(message) => role + ":" + message + "@" + Decimal(generation)
    case None => role + "@" + Decimal(generation)
  }

  function DeliveryKey(activationId: string, role: Role, messageId: Option<string>, generation: nat): Key {
    (activationId, RoleKey(RoleName(role), messageId, generation))
  }

  function KeyOf(d: Submitted): Key {
    DeliveryKey(d.activationId, d.role, d.messageId, d.generation)
  }

  /** The three roles, each with the message id its start operation passes. */
  predicate WellRoled(role: Role, messageId: Option<string>) {
    if messageId.Some? then role == ParticipantMessage else role == AgentLaunch || role == NodePrompt
  }

  predicate PlainRole(role: string) {
    ':' !in role && '@' !in role
  }

  /** Two plain roles that are each followed by a separator are read back unambiguously. */
  lemma SplitAtSeparator(r1: string, r2: string, t1: string, t2: string)
    requires PlainRole(r1) && PlainRole(r2)
    requires |t1| > 0 && (t1[0] == ':' || t1[0] == '@')
    requires |t2| > 0 && (t2[0] == ':' || t2[0] == '@')
    requires r1 + t1 == r2 + t2
    ensures r1 == r2 && t1 == t2
  {
    var s1, s2 := r1 + t1, r2 + t2;
    assert forall i :: 0 <= i < |r1| ==> s1[i] == r1[i] && s1[i] != ':' && s1[i] != '@';
    assert forall i :: 0 <= i < |r2| ==> s2[i] == r2[i] && s2[i] != ':' && s2[i] != '@';
    assert s1[|r1|] == t1[0] && s2[|r2|] == t2[0];
    assert |r1| == |r2|;
    assert s1[..|r1|] == r1 && s2[..|r2|] == r2;
    assert s1[|r1|..] == t1 && s2[|r2|..] == t2;
  }

  lemma SplitAtLast(m1: string, d1: string, m2: string, d2: string)
    requires '@' !in d1 && '@' !in d2 && m1 + "@" + d1 == m2 + "@" + d2
    ensures m1 == m2 && d1 == d2
  {
    var s1, s2 := m1 + "@" + d1, m2 + "@" + d2;
    assert s1[|m1|] == '@' && s2[|m2|] == '@';
    assert forall i :: |m1| < i < |s1| ==> s1[i] == d1[i - |m1| - 1];
    assert forall i :: |m2| < i < |s2| ==> s2[i] == d2[i - |m2| - 1];
    assert s1[..|m1|] == m1 && s2[..|m2|] == m2;
    assert s1[|m1| + 1..] == d1 && s2[|m2| + 1..] == d2;
  }

  /** A generation holds no `@`, so the last `@` of a key is the one before it. */
  lemma SplitGeneration(m1: string, m2: string, g1: nat, g2: nat)
    requires m1 + "@" + Decimal(g1) == m2 + "@" + Decimal(g2)
    ensures m1 == m2 && g1 == g2
  {
    hide Decimal;
    SplitAtLast(m1, Decimal(g1), m2, Decimal(g2));
    DecimalInjective(g1, g2);
  }

  /** The second half of a key gives its parts back if the role holds no `:` or `@`, whatever the
      message ids hold. */
  lemma RoleKeyInjective(r1: string, m1: Option<string>, g1: nat, r2: string, m2: Option<string>, g2: nat)
    requires PlainRole(r1) && PlainRole(r2)
    requires RoleKey(r1, m1, g1) == RoleKey(r2, m2, g2)
    ensures r1 == r2 && m1 == m2 && g1 == g2
  {
    hide Decimal;
    var t1, t2 := KeyTail(m1, g1), KeyTail(m2, g2);
    assert RoleKey(r1, m1, g1) == r1 + t1;
    assert RoleKey(r2, m2, g2) == r2 + t2;
    SplitAtSeparator(r1, r2, t1, t2);
    KeyTailInjective(m1, g1, m2, g2);
  }

  function KeyTail(messageId: Option<string>, generation: nat): string {
    if messageId.Some? then ":" + (messageId.value + "@" + Decimal(generation)) else "@" + Decimal(generation)
  }

  lemma KeyTailInjective(m1: Option<string>, g1: nat, m2: Option<string>, g2: nat)
    requires KeyTail(m1, g1) == KeyTail(m2, g2)
    ensures m1 == m2 && g1 == g2
  {
    hide Decimal;
    assert KeyTail(m1, g1)[0] == KeyTail(m2, g2)[0];
    if m1.Some? {
      assert KeyTail(m1, g1)[1..] == m1.value + "@" + Decimal(g1);
      assert KeyTail(m2, g2)[1..] == m2.value + "@" + Decimal(g2);
      SplitGeneration(m1.value, m2.value, g1, g2);
    } else {
      assert KeyTail(m1, g1) == [] + "@" + Decimal(g1) && KeyTail(m2, g2) == [] + "@" + Decimal(g2);
      SplitGeneration([], [], g1, g2);
    }
  }

  /** A role without a separator in its name whose name no other role has: the three known ones. */
  lemma KnownRoleNames(r1: Role, r2: Role)
    requires !r1.UnknownRole? && !r2.UnknownRole?
    ensures PlainRole(RoleName(r1))
    ensures RoleName(r1) == RoleName(r2) ==> r1 == r2
  {
  }

  /** delivery_key is injective on deliveries in the known roles. */
  lemma DeliveryKeyInjective(a1: string, r1: Role, m1: Option<string>, g1: nat,
                             a2: string, r2: Role, m2: Option<string>, g2: nat)
    requires !r1.UnknownRole? && !r2.UnknownRole?
    requires DeliveryKey(a1, r1, m1, g1) == DeliveryKey(a2, r2, m2, g2)
    ensures a1 == a2 && r1 == r2 && m1 == m2 && g1 == g2
  {
    KnownRoleNames(r1, r2);
    KnownRoleNames(r2, r1);
    RoleKeyInjective(RoleName(r1), m1, g1, RoleName(r2), m2, g2);
  }

  lemma LaunchIsNotPrompt(id: string, generation: nat)
    ensures DeliveryKey(id, AgentLaunch, None, generation) != DeliveryKey(id, NodePrompt, None, generation)
  {
    if DeliveryKey(id, AgentLaunch, None, generation) == DeliveryKey(id, NodePrompt, None, generation) {
      DeliveryKeyInjective(id, AgentLaunch, None, generation, id, NodePrompt, None, generation);
    }
  }
}
