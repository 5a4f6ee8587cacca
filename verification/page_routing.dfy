/** The page-routing lookup (PageRoutingService.cs) over the ordered stack
    of page identifiers, bottom first: the last element is the page on top.
    The page container that performs a push or pop is not modelled; only
    the lookup and the decision it drives are. */
module PageRouting {

  /** What a navigation request does to the stack. */
  datatype Decision = Push(name: string) | Pop(count: nat) | Stay

  /** The stack once the container has carried out a decision: a push puts
      the page on top, a pop removes that many pages from the top. A page
      pushed under a key is taken to be identified by that key afterwards;
      the container that assigns identifiers is not part of this model. */
  function Apply(stack: seq<string>, d: Decision): seq<string>
    requires d.Pop? ==> d.count <= |stack|
  {
    match d
    case Push(name) => stack + [name]
    case Pop(count) => stack[..|stack| - count]
    case Stay => stack
  }

  /** The identifiers of the pages from the top of the stack down. */
  method GetPageNames(stack: seq<string>) returns (names: seq<string>)
    ensures |names| == |stack|
    ensures forall k :: 0 <= k < |stack| ==> names[k] == stack[|stack| - 1 - k]
  {
    names := [];
    var i := |stack| - 1;
    while i >= 0
      invariant -1 <= i < |stack|
      invariant |names| == |stack| - 1 - i
      invariant forall k :: 0 <= k < |names| ==> names[k] == stack[|stack| - 1 - k]
    {
      names := names + [stack[i]];
      i := i - 1;
    }
  }

  /** How many pages sit above the topmost page called `name` (0 when it is
      on top), or -1 when no page has that name. */
  method GetPageIdentifer(stack: seq<string>, name: string) returns (r: int)
    ensures -1 <= r < |stack|
    ensures r == -1 <==> name !in stack
    ensures r >= 0 ==> stack[|stack| - 1 - r] == name
    ensures r >= 0 ==> forall j :: |stack| - 1 - r < j < |stack| ==> stack[j] != name
    ensures r == 0 <==> |stack| > 0 && stack[|stack| - 1] == name
  {
    var i := |stack| - 1;
    while i >= 0
      invariant -1 <= i < |stack|
      invariant forall j :: i < j < |stack| ==> stack[j] != name
    {
      if stack[i] == name {
        return |stack| - 1 - i;
      }
      i := i - 1;
    }
    return -1;
  }

  /** Pop back to the topmost page called `name` if it is below the top,
      stay if it is on top, push it if it is nowhere in the stack. */
  method PushOrPopPage(stack: seq<string>, name: string) returns (d: Decision)
    ensures d == Push(name) <==> name !in stack
    ensures d == Stay <==> |stack| > 0 && stack[|stack| - 1] == name
    ensures d.Pop? ==> 1 <= d.count < |stack|
    ensures d.Pop? ==> var kept := stack[..|stack| - d.count];
                       kept[|kept| - 1] == name && name !in stack[|stack| - d.count..]
    ensures d.Push? ==> d.name == name
    ensures var after := Apply(stack, d); |after| > 0 && after[|after| - 1] == name
    ensures Apply(stack, d) <= stack + [name]
  {
    var positionFromEnd := GetPageIdentifer(stack, name);
    if positionFromEnd >= 1 {
      d := Pop(positionFromEnd);
    } else if positionFromEnd == 0 {
      d := Stay;
    } else {
      d := Push(name);
    }
  }
}
