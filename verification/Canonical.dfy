// The part of the canonical vocabulary that continuity reasons about: ordered
// items, the request-scoped prelude that leads them, requests and responses
// (internal/domain/canonical).
module Canonical {
  import opened Wrappers
  import opened Text

  datatype Scope = HistoryScope | RequestScope

  datatype Role = User | Assistant | System | Developer

  datatype ToolKind =
    | FunctionTool
    | CustomTool
    | DiscoveryTool
    | NamespaceTool
    | McpTool
    | WebSearchTool

  // One exclusive branch of the ordered exchange grammar. Payloads that no
  // modelled rule inspects are kept as opaque text.
  datatype Item =
    | Message(role: Role, scope: Scope, text: string)
    | ToolDeclarations(scope: Scope, tools: string)
    | ToolCall(callId: string, kind: ToolKind, input: string)
    | ToolResult(callId: string, webSearch: bool, content: string)
    | ToolDiscoveryResult(callId: string, tools: string)
    | Reasoning(text: string)

  function ItemScope(item: Item): Scope {
    match item
    case Message(_, scope, _) => scope
    case ToolDeclarations(scope, _) => scope
    case _ => HistoryScope
  }

  predicate Scoped(item: Item) {
    ItemScope(item) == RequestScope
  }

  // What the item constructors guarantee: only system and developer messages
  // may be request-scoped.
  predicate ConstructedItem(item: Item) {
    item.Message? && item.scope == RequestScope ==> item.role == System || item.role == Developer
  }

  predicate AllScoped(items: seq<Item>) {
    forall i :: 0 <= i < |items| ==> Scoped(items[i])
  }

  predicate NoneScoped(items: seq<Item>) {
    forall i :: 0 <= i < |items| ==> !Scoped(items[i])
  }

  // ---------------------------------------------------------------- prelude

  datatype Prelude = Prelude(items: seq<Item>, directives: seq<Item>, declarations: seq<Item>, toolsFirst: bool)

  datatype Split = Split(prelude: Prelude, history: seq<Item>)

  // Length of the leading request-scoped run.
  function LeadCount(items: seq<Item>): (n: nat)
    ensures n <= |items|
    ensures AllScoped(items[..n])
    ensures n < |items| ==> !Scoped(items[n])
  {
    if items == [] || !Scoped(items[0]) then 0
    else
      var rest := LeadCount(items[1..]);
      assert items[..rest + 1] == [items[0]] + items[1..][..rest];
      rest + 1
  }

  // How often neighbours in a prelude belong to different bands.
  function Transitions(items: seq<Item>): nat {
    if |items| < 2 then 0
    else (if items[0].Message? != items[1].Message? then 1 else 0) + Transitions(items[1..])
  }

  function Directives(items: seq<Item>): (band: seq<Item>)
    ensures AllScoped(items) ==> AllScoped(band)
    ensures forall i :: 0 <= i < |band| ==> band[i].Message?
  {
    if items == [] then []
    else (if items[0].Message? then [items[0]] else []) + Directives(items[1..])
  }

  function Declarations(items: seq<Item>): (band: seq<Item>)
    ensures AllScoped(items) ==> AllScoped(band)
    ensures forall i :: 0 <= i < |band| ==> !band[i].Message?
  {
    if items == [] then []
    else (if items[0].Message? then [] else [items[0]]) + Declarations(items[1..])
  }

  predicate SplitAdmitted(items: seq<Item>) {
    var n := LeadCount(items);
    NoneScoped(items[n..]) && Transitions(items[..n]) <= 1
  }

  function PreludeOf(items: seq<Item>): Prelude {
    Prelude(items, Directives(items), Declarations(items), items != [] && !items[0].Message?)
  }

  function SplitRequestPrelude(items: seq<Item>): (r: Option<Split>)
    ensures r.Some? ==>
              && r.value.prelude.items + r.value.history == items
              && AllScoped(r.value.prelude.items)
              && NoneScoped(r.value.history)
  {
    if SplitAdmitted(items) then
      var n := LeadCount(items);
      Some(Split(PreludeOf(items[..n]), items[n..]))
    else None
  }

  function RetainedHistory(items: seq<Item>): (retained: seq<Item>)
    ensures NoneScoped(retained)
    ensures |retained| <= |items|
  {
    if items == [] then []
    else (if Scoped(items[0]) then [] else [items[0]]) + RetainedHistory(items[1..])
  }

  lemma AddNothing(items: seq<Item>)
    ensures items + [] == items == [] + items
  {
  }

  lemma PushFront(item: Item, a: seq<Item>, b: seq<Item>)
    ensures [item] + (a + b) == ([item] + a) + b
  {
  }

  lemma {:induction false} RetainedHistoryConcat(a: seq<Item>, b: seq<Item>)
    ensures RetainedHistory(a + b) == RetainedHistory(a) + RetainedHistory(b)
  {
    if a == [] {
      assert a + b == b;
    } else {
      RetainedHistoryConcat(a[1..], b);
      assert (a + b)[0] == a[0];
      assert (a + b)[1..] == a[1..] + b;
      if !Scoped(a[0]) {
        PushFront(a[0], RetainedHistory(a[1..]), RetainedHistory(b));
      }
    }
  }

  lemma {:induction false} RetainedHistoryOfScoped(items: seq<Item>)
    requires AllScoped(items)
    ensures RetainedHistory(items) == []
  {
    if items != [] {
      RetainedHistoryOfScoped(items[1..]);
    }
  }

  lemma {:induction false} RetainedHistoryOfHistory(items: seq<Item>)
    requires NoneScoped(items)
    ensures RetainedHistory(items) == items
  {
    if items != [] {
      RetainedHistoryOfHistory(items[1..]);
      assert items == [items[0]] + items[1..];
    }
  }

  // A prelude followed by history splits back at exactly that seam, and what
  // is retained is exactly the history.
  lemma {:induction false} SplitAtSeam(prelude: seq<Item>, history: seq<Item>)
    requires AllScoped(prelude) && NoneScoped(history)
    ensures LeadCount(prelude + history) == |prelude|
    ensures RetainedHistory(prelude + history) == history
    ensures Transitions(prelude) <= 1 ==>
              SplitRequestPrelude(prelude + history) == Some(Split(PreludeOf(prelude), history))
  {
    LeadCountAtSeam(prelude, history);
    RetainedHistoryConcat(prelude, history);
    RetainedHistoryOfScoped(prelude);
    RetainedHistoryOfHistory(history);
    var items := prelude + history;
    assert items[..|prelude|] == prelude;
    assert items[|prelude|..] == history;
  }

  lemma {:induction false} LeadCountAtSeam(prelude: seq<Item>, history: seq<Item>)
    requires AllScoped(prelude) && NoneScoped(history)
    ensures LeadCount(prelude + history) == |prelude|
  {
    var items := prelude + history;
    if prelude == [] {
      assert items == history;
    } else {
      LeadCountAtSeam(prelude[1..], history);
      assert items[1..] == prelude[1..] + history;
    }
  }

  // Splitting succeeds exactly on prelude-then-history, and retains the history.
  lemma SplitRetains(items: seq<Item>)
    requires SplitRequestPrelude(items).Some?
    ensures RetainedHistory(items) == SplitRequestPrelude(items).value.history
  {
    var split := SplitRequestPrelude(items).value;
    SplitAtSeam(split.prelude.items, split.history);
  }

  // The two bands of a prelude in the order toolsFirst names.
  function Bands(prelude: Prelude): seq<Item> {
    if prelude.toolsFirst then prelude.declarations + prelude.directives else prelude.directives + prelude.declarations
  }

  // An item in front of a prelude of its own band lengthens that band.
  lemma FrontOfSameBand(items: seq<Item>, item: Item, rest: seq<Item>)
    requires items == [item] + rest && rest != [] && item.Message? == rest[0].Message?
    requires rest == Bands(PreludeOf(rest))
    ensures items == Bands(PreludeOf(items))
  {
    assert items[1..] == rest;
    PushFront(item, Directives(rest), Declarations(rest));
    PushFront(item, Declarations(rest), Directives(rest));
  }

  // An item in front of a uniform prelude of the other band is a band by itself.
  lemma FrontOfOtherBand(items: seq<Item>, item: Item, rest: seq<Item>)
    requires items == [item] + rest && (rest != [] ==> item.Message? != rest[0].Message? && Transitions(rest) == 0)
    ensures items == Bands(PreludeOf(items))
  {
    var d, t := Directives(rest), Declarations(rest);
    assert items[1..] == rest && items[0] == item;
    assert if item.Message? then d == [] && t == rest else d == rest && t == [] by {
      if rest != [] {
        UniformBand(rest);
      }
    }
    AddNothing([item]);
    AddNothing(rest);
  }

  // A prelude is its two bands.
  lemma {:induction false} PreludeIsItsBands(items: seq<Item>)
    requires Transitions(items) <= 1
    ensures items == Bands(PreludeOf(items))
  {
    if items != [] {
      var item, rest := items[0], items[1..];
      assert items == [item] + rest;
      if rest != [] && item.Message? == rest[0].Message? {
        PreludeIsItsBands(rest);
        FrontOfSameBand(items, item, rest);
      } else {
        FrontOfOtherBand(items, item, rest);
      }
    }
  }

  lemma {:induction false} UniformBand(items: seq<Item>)
    requires items != [] && Transitions(items) == 0
    ensures items[0].Message? ==> Directives(items) == items && Declarations(items) == []
    ensures !items[0].Message? ==> Directives(items) == [] && Declarations(items) == items
  {
    assert items == [items[0]] + items[1..];
    if |items| >= 2 {
      UniformBand(items[1..]);
    } else {
      assert items[1..] == [];
    }
  }

  predicate AllOfBand(items: seq<Item>, message: bool) {
    forall i :: 0 <= i < |items| ==> items[i].Message? == message
  }

  lemma {:induction false} OneBand(items: seq<Item>, message: bool)
    requires AllOfBand(items, message)
    ensures Transitions(items) == 0
    ensures Directives(items) == if message then items else []
    ensures Declarations(items) == if message then [] else items
  {
    if items != [] {
      OneBand(items[1..], message);
      assert items == [items[0]] + items[1..];
    }
  }

  // Two uniform bands, in either order, make an admissible prelude whose bands
  // are those two, in that order.
  lemma {:induction false} BandsMakePrelude(first: seq<Item>, second: seq<Item>, message: bool)
    requires AllOfBand(first, message) && AllOfBand(second, !message)
    ensures Transitions(first + second) == if first == [] || second == [] then 0 else 1
    ensures var prelude := PreludeOf(first + second);
            && prelude.directives == (if message then first else second)
            && prelude.declarations == (if message then second else first)
            && prelude.toolsFirst == if first != [] then !message else second != [] && message
  {
    var both := first + second;
    if first == [] {
      assert both == second;
      OneBand(second, !message);
    } else {
      var item, rest := first[0], first[1..];
      BandsMakePrelude(rest, second, message);
      assert first == [item] + rest && both[1..] == rest + second;
    }
  }

  // ------------------------------------------------------ requests, responses

  // A provider-native continuation handle bound to one target generation.
  datatype Handle = Handle(providerId: string, targetId: string, targetVersion: nat)

  datatype ResponseRef = ResponseRef(swobuId: string, responses: Option<Handle>, interactions: Option<Handle>)

  predicate BoundHandle(handle: Handle) {
    !Blank(handle.providerId) && !Blank(handle.targetId) && handle.targetVersion != 0
  }

  predicate CommittedRef(ref: ResponseRef) {
    && !Blank(ref.swobuId)
    && (ref.responses.Some? ==> BoundHandle(ref.responses.value))
    && (ref.interactions.Some? ==> BoundHandle(ref.interactions.value))
    && !(ref.responses.Some? && ref.interactions.Some?)
  }

  // The request bands that continuity carries but never reads.
  datatype Controls = Controls(
    toolPolicy: Option<string>,
    toolCallBatch: Option<string>,
    generation: string,
    reasoning: string,
    outputFormat: Option<string>,
    store: Option<bool>
  )

  datatype Request = Request(
    model: Option<string>,
    items: seq<Item>,
    previous: Option<ResponseRef>,
    controls: Controls
  )

  function WithItems(request: Request, items: seq<Item>): Request {
    request.(items := items)
  }

  datatype Response = Response(ref: ResponseRef, items: seq<Item>, outcome: string)

  // Responses hold assistant messages, reasoning, calls and provider-settled
  // results only.
  predicate ResponseItem(item: Item) {
    match item
    case Message(role, _, _) => role == Assistant
    case ToolDeclarations(_, _) => false
    case ToolResult(_, webSearch, _) => webSearch
    case _ => true
  }

  predicate WellFormedResponse(response: Response) {
    forall i :: 0 <= i < |response.items| ==>
      ResponseItem(response.items[i]) && ConstructedItem(response.items[i])
  }

  lemma ResponseItemsAreHistory(response: Response)
    requires WellFormedResponse(response)
    ensures NoneScoped(response.items)
  {
    forall i | 0 <= i < |response.items|
      ensures !Scoped(response.items[i])
    {
      assert ResponseItem(response.items[i]) && ConstructedItem(response.items[i]);
    }
  }
}
