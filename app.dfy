/** The page's section router: the order in which the seven sections are
    shown, the operation that brings one section to the front, and the
    keyword rule that turns a free-text intent into a reordering. */
module App {
  import opened JsText
  import LivingCommandBar

  datatype SectionId = Hero | Promo | Services | LeadGen | Visualizer | Roadmap | Contact

  /** The order on first render, restored by the "reset" intent. */
  const InitialOrder: seq<SectionId> := [Hero, Promo, Services, LeadGen, Visualizer, Roadmap, Contact]

  /** Every section exactly once. */
  ghost predicate IsArrangement(order: seq<SectionId>) {
    |order| == 7 && forall id: SectionId :: multiset(order)[id] == 1
  }

  lemma InitialOrderIsArrangement()
    ensures IsArrangement(InitialOrder)
  {
    forall id: SectionId ensures multiset(InitialOrder)[id] == 1 {
      match id
      case Hero => case Promo => case Services => case LeadGen =>
      case Visualizer => case Roadmap => case Contact =>
    }
  }

  /** `a` is `b` with some elements dropped, the rest in the same order. */
  predicate IsSubsequence<T(==)>(a: seq<T>, b: seq<T>)
    decreases |b|
  {
    if a == [] then true
    else if b == [] then false
    else if a[0] == b[0] then IsSubsequence(a[1..], b[1..])
    else IsSubsequence(a, b[1..])
  }

  /** A subsequence holds no more of any element than the whole. */
  lemma {:induction false} SubsequenceCounts<T>(a: seq<T>, b: seq<T>, x: T)
    requires IsSubsequence(a, b)
    ensures multiset(a)[x] <= multiset(b)[x]
    decreases |b|
  {
    if a != [] {
      assert b == [b[0]] + b[1..];
      if a[0] == b[0] {
        assert a == [a[0]] + a[1..];
        SubsequenceCounts(a[1..], b[1..], x);
      } else {
        SubsequenceCounts(a, b[1..], x);
      }
    }
  }

  /** `order.filter(item => item !== id)`: no `id` left, every other
      section kept as often as before and in the same relative order. */
  function Without(order: seq<SectionId>, id: SectionId): (r: seq<SectionId>)
    ensures id !in r
    ensures forall x :: x != id ==> multiset(r)[x] == multiset(order)[x]
    ensures IsSubsequence(r, order)
  {
    if order == [] then []
    else
      var rest := Without(order[1..], id);
      assert order == [order[0]] + order[1..];
      if order[0] == id then
        rest
      else
        var r := [order[0]] + rest;
        assert r[1..] == rest;
        r
  }

  /** The contract of `Without` leaves no choice: anything with no `id`,
      the same count of every other section and the same relative order is
      the filtered list. */
  lemma {:induction false} WithoutUnique(s: seq<SectionId>, order: seq<SectionId>, id: SectionId)
    requires id !in s && IsSubsequence(s, order)
    requires forall x :: x != id ==> multiset(s)[x] == multiset(order)[x]
    ensures s == Without(order, id)
    decreases |order|
  {
    if order != [] {
      var o := order[0];
      var rest := order[1..];
      assert order == [o] + rest;
      if o == id {
        assert s == [] || s[0] != o;
        WithoutUnique(s, rest, id);
      } else if s == [] {
        assert false;
      } else if s[0] == o {
        assert s == [s[0]] + s[1..];
        assert multiset(s) == multiset{o} + multiset(s[1..]);
        assert multiset(order) == multiset{o} + multiset(rest);
        forall x | x != id ensures multiset(s[1..])[x] == multiset(rest)[x] {
          assert multiset(s)[x] == multiset(order)[x];
        }
        WithoutUnique(s[1..], rest, id);
      } else {
        SubsequenceCounts(s, rest, o);
        assert false;
      }
    } else {
      assert s == [];
    }
  }

  /** `moveSectionToFront(id, currentOrder)`: `id` first, then the
      remaining sections in their previous relative order, each as often
      as before; `id` itself appears exactly once. */
  function MoveSectionToFront(id: SectionId, order: seq<SectionId>): (r: seq<SectionId>)
    ensures |r| >= 1 && r[0] == id && id !in r[1..]
    ensures multiset(r)[id] == 1
    ensures forall x :: x != id ==> multiset(r)[x] == multiset(order)[x]
    ensures IsSubsequence(r[1..], order)
  {
    var r := [id] + Without(order, id);
    assert r[1..] == Without(order, id);
    r
  }

  /** Moving an arrangement's section to the front gives an arrangement:
      nothing is lost and nothing is duplicated. */
  lemma MovePreservesArrangement(id: SectionId, order: seq<SectionId>)
    requires IsArrangement(order)
    ensures IsArrangement(MoveSectionToFront(id, order))
  {
    var r := MoveSectionToFront(id, order);
    assert multiset(r) == multiset(order) by {
      assert forall x :: multiset(r)[x] == multiset(order)[x];
    }
    assert |r| == |multiset(r)| == |multiset(order)| == |order|;
  }

  /** Filtering out a section that is absent changes nothing. */
  lemma {:induction false} WithoutAbsent(order: seq<SectionId>, id: SectionId)
    requires id !in order
    ensures Without(order, id) == order
  {
    if order != [] {
      WithoutAbsent(order[1..], id);
    }
  }

  /** Moving to the front is idempotent, and a list that already starts
      with its only `id` is returned as it is. */
  lemma MoveSectionToFrontIdempotent(id: SectionId, order: seq<SectionId>)
    ensures MoveSectionToFront(id, MoveSectionToFront(id, order)) == MoveSectionToFront(id, order)
    ensures |order| > 0 && order[0] == id && id !in order[1..] ==> MoveSectionToFront(id, order) == order
  {
    var once := MoveSectionToFront(id, order);
    assert once == [id] + once[1..];
    WithoutAbsent(once[1..], id);
    if |order| > 0 && order[0] == id && id !in order[1..] {
      assert order == [id] + order[1..];
      WithoutAbsent(order[1..], id);
    }
  }

  // ---------------------------------------------------------------------
  // handleIntent

  /** What an intent does to the order. */
  datatype Route = MoveToFront(target: SectionId) | ResetOrder | Keep

  /** The position of a section's keyword group in the matching order. */
  function Rank(id: SectionId): nat {
    match id
    case LeadGen => 0
    case Services => 1
    case Visualizer => 2
    case Roadmap => 3
    case Contact => 4
    case Hero => 5
    case Promo => 6
  }

  /** Some keyword of `id`'s group occurs in `s` (the hero and promo
      sections have none). */
  predicate Mentions(s: string, id: SectionId) {
    match id
    case LeadGen => Contains(s, "lead") || Contains(s, "gen") || Contains(s, "poc")
    case Services => Contains(s, "service") || Contains(s, "work") || Contains(s, "capabilities")
    case Visualizer => Contains(s, "rag") || Contains(s, "visualizer")
    case Roadmap => Contains(s, "roadmap") || Contains(s, "process")
    case Contact => Contains(s, "contact") || Contains(s, "hire")
    case Hero => false
    case Promo => false
  }

  /** Some keyword of some group occurs in `s`. */
  predicate MentionsAny(s: string) {
    || Mentions(s, LeadGen) || Mentions(s, Services) || Mentions(s, Visualizer)
    || Mentions(s, Roadmap) || Mentions(s, Contact)
  }

  /** The keyword rule on an already lower-cased intent: the first group,
      in the order lead/gen/poc, service/work/capabilities, rag/visualizer,
      roadmap/process, contact/hire, whose keyword occurs decides; with no
      keyword, "reset" restores the initial order; otherwise nothing
      changes. */
  function Classify(normalized: string): (r: Route)
    ensures r.MoveToFront? ==> Mentions(normalized, r.target)
    ensures r.MoveToFront? ==> forall g :: Rank(g) < Rank(r.target) ==> !Mentions(normalized, g)
    ensures !r.MoveToFront? <==> !MentionsAny(normalized)
    ensures r.ResetOrder? <==> !MentionsAny(normalized) && Contains(normalized, "reset")
  {
    if Contains(normalized, "lead") || Contains(normalized, "gen") || Contains(normalized, "poc") then
      MoveToFront(LeadGen)
    else if Contains(normalized, "service") || Contains(normalized, "work") || Contains(normalized, "capabilities") then
      MoveToFront(Services)
    else if Contains(normalized, "rag") || Contains(normalized, "visualizer") then
      MoveToFront(Visualizer)
    else if Contains(normalized, "roadmap") || Contains(normalized, "process") then
      MoveToFront(Roadmap)
    else if Contains(normalized, "contact") || Contains(normalized, "hire") then
      MoveToFront(Contact)
    else if Contains(normalized, "reset") then
      ResetOrder
    else
      Keep
  }

  /** The order a route produces from the current one. */
  function ApplyRoute(route: Route, order: seq<SectionId>): (r: seq<SectionId>)
    ensures route.MoveToFront? ==> |r| >= 1 && r[0] == route.target && route.target !in r[1..]
    ensures route.MoveToFront? ==> forall x :: x != route.target ==> multiset(r)[x] == multiset(order)[x]
    ensures route.ResetOrder? ==> r == InitialOrder
    ensures route.Keep? ==> r == order
  {
    match route
    case MoveToFront(id) => MoveSectionToFront(id, order)
    case ResetOrder => InitialOrder
    case Keep => order
  }

  /** Every route keeps the order an arrangement of the seven sections. */
  lemma RoutePreservesArrangement(route: Route, order: seq<SectionId>)
    requires IsArrangement(order)
    ensures IsArrangement(ApplyRoute(route, order))
  {
    match route
    case MoveToFront(id) => MovePreservesArrangement(id, order);
    case ResetOrder => InitialOrderIsArrangement();
    case Keep =>
  }

  /** Matching ignores case: two intents that differ only in the case of
      their letters route alike, and an intent lower-cased before it is
      handed over routes as the raw intent would. */
  lemma RouteIgnoresCase(a: string, b: string)
    requires ToLower(a) == ToLower(b)
    ensures Classify(ToLower(a)) == Classify(ToLower(b))
    ensures Classify(ToLower(ToLower(a))) == Classify(ToLower(a))
  {
    ToLowerIdempotent(a);
  }

  /** Lower-casing a literal, character by character. */
  lemma LowerLiteral(s: string, t: string)
    requires |s| == |t|
    requires forall i :: 0 <= i < |s| ==> LowerChar(s[i]) == t[i]
    ensures ToLower(s) == t
  {
  }

  /** Priority in action: "hire for lead gen" names both the contact and the
      lead-generation groups, and lead generation wins. */
  lemma HireForLeadGenRoutesToLeadGen()
    ensures Mentions("hire for lead gen", Contact)
    ensures Classify("hire for lead gen") == MoveToFront(LeadGen)
  {
    var s := "hire for lead gen";
    assert OccursAt(s, "hire", 0);
    assert OccursAt(s, "lead", 9);
  }

  /** The "Capabilities" nav button brings the services forward. */
  lemma CapabilitiesRoutesToServices()
    ensures LivingCommandBar.NavItems[0] == "Capabilities"
    ensures Classify(ToLower("Capabilities")) == MoveToFront(Services)
  {
    LowerLiteral("Capabilities", "capabilities");
    CapabilitiesClassifies();
  }

  lemma CapabilitiesClassifies()
    ensures Classify("capabilities") == MoveToFront(Services)
  {
    var cap := "capabilities";
    MissingCharNotContained(cap, "lead", 3);
    MissingCharNotContained(cap, "gen", 0);
    MissingCharNotContained(cap, "poc", 1);
    assert OccursAt(cap, "capabilities", 0);
  }

  /** The call to action brings the contact section forward. */
  lemma CtaRoutesToContact()
    ensures Classify(ToLower(LivingCommandBar.CtaIntent)) == MoveToFront(Contact)
  {
    LowerLiteral("contact", "contact");
    ContactMentionsOnlyContact();
  }

  /** "contact" names the contact group and no earlier one. */
  lemma ContactMentionsOnlyContact()
    ensures !Mentions("contact", LeadGen) && !Mentions("contact", Services)
    ensures !Mentions("contact", Visualizer) && !Mentions("contact", Roadmap)
    ensures Mentions("contact", Contact)
  {
    var cta := "contact";
    MissingCharNotContained(cta, "lead", 0);
    MissingCharNotContained(cta, "gen", 0);
    MissingCharNotContained(cta, "poc", 0);
    MissingCharNotContained(cta, "service", 0);
    MissingCharNotContained(cta, "work", 0);
    MissingCharNotContained(cta, "capabilities", 2);
    MissingCharNotContained(cta, "rag", 0);
    MissingCharNotContained(cta, "visualizer", 0);
    MissingCharNotContained(cta, "roadmap", 0);
    MissingCharNotContained(cta, "process", 0);
    assert OccursAt(cta, "contact", 0);
  }

  /** "protocols" holds no "poc": its only `p` is followed by `r`. */
  lemma ProtocolsHasNoPoc()
    ensures !Contains("protocols", "poc")
  {
    assert "protocols" == ['p'] + "rotocols";
    ContainsCons('p', "rotocols", "poc");
    assert "protocols"[..3][1] == 'r';
    MissingCharNotContained("rotocols", "poc", 0);
  }

  /** The "Protocols" nav button matches no keyword and leaves the order alone. */
  lemma ProtocolsKeepsOrder()
    ensures LivingCommandBar.NavItems[1] == "Protocols"
    ensures Classify(ToLower("Protocols")) == Keep
  {
    LowerLiteral("Protocols", "protocols");
    ProtocolsIsSilent();
  }

  /** "protocols" holds no keyword and no "reset". */
  lemma ProtocolsIsSilent()
    ensures !MentionsAny("protocols") && !Contains("protocols", "reset")
  {
    var pro := "protocols";
    ProtocolsHasNoPoc();
    MissingCharNotContained(pro, "lead", 1);
    MissingCharNotContained(pro, "gen", 0);
    MissingCharNotContained(pro, "service", 1);
    MissingCharNotContained(pro, "work", 0);
    MissingCharNotContained(pro, "capabilities", 1);
    MissingCharNotContained(pro, "rag", 1);
    MissingCharNotContained(pro, "visualizer", 0);
    MissingCharNotContained(pro, "roadmap", 3);
    MissingCharNotContained(pro, "process", 4);
    MissingCharNotContained(pro, "contact", 2);
    MissingCharNotContained(pro, "hire", 0);
    MissingCharNotContained(pro, "reset", 1);
  }

  /** The "Launch" nav button matches no keyword and leaves the order alone. */
  lemma LaunchKeepsOrder()
    ensures LivingCommandBar.NavItems[2] == "Launch"
    ensures Classify(ToLower("Launch")) == Keep
  {
    LowerLiteral("Launch", "launch");
    LaunchIsSilent();
  }

  /** "launch" holds no keyword and no "reset". */
  lemma LaunchIsSilent()
    ensures !MentionsAny("launch") && !Contains("launch", "reset")
  {
    var lau := "launch";
    MissingCharNotContained(lau, "lead", 1);
    MissingCharNotContained(lau, "gen", 0);
    MissingCharNotContained(lau, "poc", 0);
    MissingCharNotContained(lau, "service", 0);
    MissingCharNotContained(lau, "work", 0);
    MissingCharNotContained(lau, "capabilities", 2);
    MissingCharNotContained(lau, "rag", 0);
    MissingCharNotContained(lau, "visualizer", 0);
    MissingCharNotContained(lau, "roadmap", 0);
    MissingCharNotContained(lau, "process", 0);
    MissingCharNotContained(lau, "contact", 1);
    MissingCharNotContained(lau, "hire", 1);
    MissingCharNotContained(lau, "reset", 0);
  }

  /** The page's state: the current section order. */
  class Page {
    var sectionOrder: seq<SectionId>

    constructor ()
      ensures sectionOrder == InitialOrder && IsArrangement(sectionOrder)
    {
      sectionOrder := InitialOrder;
      InitialOrderIsArrangement();
    }

    /** `handleIntent(intent)`: lower-cases the intent, picks the first
        matching keyword group and writes the resulting order. The page
        scroll that follows is not modelled. */
    method HandleIntent(intent: string)
      modifies this
      ensures sectionOrder == ApplyRoute(Classify(ToLower(intent)), old(sectionOrder))
      ensures IsArrangement(old(sectionOrder)) ==> IsArrangement(sectionOrder)
      ensures !MentionsAny(ToLower(intent)) && !Contains(ToLower(intent), "reset")
        ==> sectionOrder == old(sectionOrder)
    {
      var newOrder := sectionOrder;
      var normalized := ToLower(intent);
      var route := Classify(normalized);
      if route.MoveToFront? {
        newOrder := MoveSectionToFront(route.target, newOrder);
      } else if route.ResetOrder? {
        newOrder := InitialOrder;
      }
      if IsArrangement(sectionOrder) {
        RoutePreservesArrangement(route, sectionOrder);
      }
      sectionOrder := newOrder;
    }
  }
}
