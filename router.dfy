/**
 The routing state of a streamlit-flow application, as values: the registry of
 pages, the current page and the arguments stored for its next render, together
 with the three transitions the router makes (register a page, navigate to a
 page, render the current page) and traces of such transitions. The router never
 looks inside the arguments it stores, so their type V is a parameter.
 */
module Router {

  /** The identity of a registered view function; what the view does is not modelled. */
  datatype ViewId = ViewId(id: nat)

  /** The exceptions the router raises. */
  datatype Error =
    | PageNotKnown(page: string)  // ValueError from next/goto
    | KeyError(key: string)       // registry lookup in show

  datatype Result<T> = Ok(value: T) | Err(error: Error)

  /** The call that show makes: which view, with which arguments. */
  datatype Call<V> = Call(view: ViewId, args: seq<V>, kwargs: map<string, V>)

  /** The four fields of the router. */
  datatype State<V> = State(
    pages: map<string, ViewId>,
    page: string,
    args: seq<V>,
    kwargs: map<string, V>)

  /** The page a fresh router starts on, whether or not it is ever registered. */
  const InitialPage: string := "main"

  function Initial<V>(): (s: State<V>) {
    State(map[], InitialPage, [], map[])
  }

  /** route(name)(view): add or overwrite one registry entry. */
  function Register<V>(s: State<V>, name: string, view: ViewId): (t: State<V>) {
    s.(pages := s.pages[name := view])
  }

  /** next(page, *args, **kwargs): validate the name, then overwrite the three navigation fields. */
  function Navigate<V>(s: State<V>, page: string, args: seq<V>, kwargs: map<string, V>): (r: Result<State<V>>) {
    if page !in s.pages then Err(PageNotKnown(page))
    else Ok(s.(page := page, args := args, kwargs := kwargs))
  }

  /** show(): look the current page up and call it with the stored arguments. */
  function Render<V>(s: State<V>): (r: Result<Call<V>>) {
    if s.page in s.pages then Ok(Call(s.pages[s.page], s.args, s.kwargs))
    else Err(KeyError(s.page))
  }

  /** show() can find its page. */
  predicate Showable<V>(s: State<V>) {
    s.page in s.pages
  }

  // ---------------------------------------------------------------------------
  // Properties of one transition

  lemma RegisterSpec<V>(s: State<V>, name: string, view: ViewId)
    ensures Register(s, name, view).pages.Keys == s.pages.Keys + {name}
    ensures Register(s, name, view).pages[name] == view
    ensures forall n :: n in s.pages && n != name ==> Register(s, name, view).pages[n] == s.pages[n]
    ensures Register(s, name, view).page == s.page
    ensures Register(s, name, view).args == s.args
    ensures Register(s, name, view).kwargs == s.kwargs
  {
  }

  lemma NavigateSpec<V>(s: State<V>, page: string, args: seq<V>, kwargs: map<string, V>)
    ensures Navigate(s, page, args, kwargs).Err? <==> page !in s.pages
    ensures Navigate(s, page, args, kwargs).Err? ==> Navigate(s, page, args, kwargs).error == PageNotKnown(page)
    ensures Navigate(s, page, args, kwargs).Ok? ==>
              Navigate(s, page, args, kwargs).value == State(s.pages, page, args, kwargs)
    ensures Navigate(s, page, args, kwargs).Ok? ==> Showable(Navigate(s, page, args, kwargs).value)
  {
  }

  lemma RenderSpec<V>(s: State<V>)
    ensures Render(s).Ok? <==> Showable(s)
    ensures Render(s).Ok? ==> Render(s).value == Call(s.pages[s.page], s.args, s.kwargs)
    ensures Render(s).Err? ==> Render(s).error == KeyError(s.page)
  {
  }

  /** A fresh router cannot render: its registry is empty. */
  lemma InitialNotShowable<V>()
    ensures Render(Initial<V>()) == Err(KeyError(InitialPage))
  {
  }

  // ---------------------------------------------------------------------------
  // Traces

  /** One call on the router. Next stands for both next and goto, which change the state alike. */
  datatype Op<V> =
    | Route(name: string, view: ViewId)
    | Next(page: string, args: seq<V>, kwargs: map<string, V>)

  /** A navigation that passes validation in state s. */
  predicate Accepted<V>(s: State<V>, op: Op<V>) {
    op.Next? && op.page in s.pages
  }

  /** The state after op; a rejected navigation raises and leaves the state as it was. */
  function Step<V>(s: State<V>, op: Op<V>): (t: State<V>) {
    match op
    case Route(name, view) => Register(s, name, view)
    case Next(page, args, kwargs) =>
      match Navigate(s, page, args, kwargs)
      case Ok(t) => t
      case Err(_) => s
  }

  /** The state after the calls ops, made in order from s. */
  function Run<V>(s: State<V>, ops: seq<Op<V>>): (t: State<V>)
    decreases |ops|
  {
    if ops == [] then s else Step(Run(s, ops[..|ops| - 1]), ops[|ops| - 1])
  }

  /** Some navigation in ops, made in order from s, passed validation. */
  predicate Navigated<V>(s: State<V>, ops: seq<Op<V>>)
    decreases |ops|
  {
    ops != [] &&
    (Navigated(s, ops[..|ops| - 1]) || Accepted(Run(s, ops[..|ops| - 1]), ops[|ops| - 1]))
  }

  lemma StepSpec<V>(s: State<V>, op: Op<V>)
    ensures s.pages.Keys <= Step(s, op).pages.Keys
    ensures Showable(s) ==> Showable(Step(s, op))
    ensures Accepted(s, op) ==> Showable(Step(s, op))
    ensures !Accepted(s, op) ==>
              Step(s, op).page == s.page && Step(s, op).args == s.args && Step(s, op).kwargs == s.kwargs
  {
  }

  /** Registration never removes a name, and no other call touches the registry. */
  lemma {:induction false} RunKeepsNames<V>(s: State<V>, ops: seq<Op<V>>)
    ensures s.pages.Keys <= Run(s, ops).pages.Keys
    decreases |ops|
  {
    if ops != [] {
      var prefix := ops[..|ops| - 1];
      RunKeepsNames(s, prefix);
      StepSpec(Run(s, prefix), ops[|ops| - 1]);
    }
  }

  /** Once show can find its page, or once a navigation has been accepted, show can always find its page. */
  lemma {:induction false} ShowableAfterNavigate<V>(s: State<V>, ops: seq<Op<V>>)
    requires Showable(s) || Navigated(s, ops)
    ensures Showable(Run(s, ops))
    decreases |ops|
  {
    if ops != [] {
      var prefix := ops[..|ops| - 1];
      if Showable(s) || Navigated(s, prefix) {
        ShowableAfterNavigate(s, prefix);
      }
      StepSpec(Run(s, prefix), ops[|ops| - 1]);
    }
  }

  /** Until a navigation is accepted, the current page and the stored arguments are those of s. */
  lemma {:induction false} FieldsUntilNavigate<V>(s: State<V>, ops: seq<Op<V>>)
    requires !Navigated(s, ops)
    ensures Run(s, ops).page == s.page
    ensures Run(s, ops).args == s.args
    ensures Run(s, ops).kwargs == s.kwargs
    decreases |ops|
  {
    if ops != [] {
      var prefix := ops[..|ops| - 1];
      FieldsUntilNavigate(s, prefix);
      StepSpec(Run(s, prefix), ops[|ops| - 1]);
    }
  }

  /**
   From a fresh router, show succeeds exactly when some navigation has been
   accepted or the initial page has been registered; when it fails, the router
   is still on the initial page with no stored arguments.
   */
  lemma {:induction false} ShowableFromInitial<V>(ops: seq<Op<V>>)
    ensures Showable(Run(Initial<V>(), ops)) <==> Navigated(Initial<V>(), ops) || InitialPage in Run(Initial<V>(), ops).pages
    ensures !Showable(Run(Initial<V>(), ops)) ==>
              var t := Run(Initial<V>(), ops);
              t.page == InitialPage && t.args == [] && t.kwargs == map[]
  {
    if Navigated(Initial<V>(), ops) {
      ShowableAfterNavigate(Initial<V>(), ops);
    } else {
      FieldsUntilNavigate(Initial<V>(), ops);
    }
  }
}
