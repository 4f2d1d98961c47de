/**
 The streamlit-flow application object: a router whose methods update its
 registry, current page and stored arguments in place. Its abstract state is
 the Router.State built from its fields, and its invariant says that this state
 is what the recorded calls produce from a fresh router.
 */
module Flow {
  import opened Router

  /** What next and goto do with control: return normally, or raise. */
  datatype Outcome = Pass | Fail(error: Error)

  /** The router; V is the type of the arguments it stores for a view. */
  class App<V> {
    var pages: map<string, ViewId>
    var page: string
    var args: seq<V>
    var kwargs: map<string, V>

    /** The route, next and goto calls made on this router so far, rejected ones included. */
    ghost var history: seq<Op<V>>
    /** How many reruns of the script this router has requested from the host framework. */
    ghost var reruns: nat

    ghost function State(): Router.State<V>
      reads this
    {
      Router.State(pages, page, args, kwargs)
    }

    ghost predicate Valid()
      reads this
    {
      State() == Run(Initial<V>(), history)
    }

    /** A router on page "main" with no arguments and no registered pages. */
    constructor ()
      ensures Valid() && history == [] && reruns == 0
      ensures page == InitialPage && args == [] && kwargs == map[] && pages == map[]
    {
      pages := map[];
      page := InitialPage;
      args := [];
      kwargs := map[];
      history := [];
      reruns := 0;
    }

    /** route(name) applied to view: registers view under name and hands view back. */
    method Route(name: string, view: ViewId) returns (registered: ViewId)
      requires Valid()
      modifies this
      ensures Valid() && history == old(history) + [Op.Route(name, view)] && reruns == old(reruns)
      ensures registered == view
      ensures pages == old(pages)[name := view]
      ensures old(pages).Keys <= pages.Keys
      ensures page == old(page) && args == old(args) && kwargs == old(kwargs)
    {
      pages := pages[name := view];
      history := history + [Op.Route(name, view)];
      registered := view;
    }

    /** next(target, *args, **kwargs): checks the name first, so a rejected call changes nothing. */
    method Next(target: string, args: seq<V>, kwargs: map<string, V>) returns (outcome: Outcome)
      requires Valid()
      modifies this
      ensures Valid() && history == old(history) + [Op.Next(target, args, kwargs)] && reruns == old(reruns)
      ensures outcome.Fail? <==> target !in old(pages)
      ensures outcome.Fail? ==> outcome == Fail(PageNotKnown(target)) && State() == old(State())
      ensures outcome.Pass? ==> page == target && this.args == args && this.kwargs == kwargs
      ensures pages == old(pages)
      ensures page in pages || old(page) == page
    {
      if target !in pages {
        outcome := Fail(PageNotKnown(target));
      } else {
        page := target;
        this.args := args;
        this.kwargs := kwargs;
        outcome := Pass;
      }
      history := history + [Op.Next(target, args, kwargs)];
    }

    /** goto(target, *args, **kwargs): next, then a rerun request if next did not raise. */
    method Goto(target: string, args: seq<V>, kwargs: map<string, V>) returns (outcome: Outcome)
      requires Valid()
      modifies this
      ensures Valid() && history == old(history) + [Op.Next(target, args, kwargs)]
      ensures outcome.Fail? <==> target !in old(pages)
      ensures outcome.Fail? ==> outcome == Fail(PageNotKnown(target)) && State() == old(State())
      ensures outcome.Pass? ==> page == target && this.args == args && this.kwargs == kwargs
      ensures pages == old(pages)
      ensures reruns == old(reruns) + (if outcome.Pass? then 1 else 0)
    {
      outcome := Next(target, args, kwargs);
      if outcome.Pass? {
        reruns := reruns + 1;
      }
    }

    /** go(): a rerun request and nothing else. */
    method Go()
      modifies this`reruns
      ensures reruns == old(reruns) + 1
      ensures Valid() == old(Valid())
    {
      reruns := reruns + 1;
    }

    /**
     show(): the view registered for the current page and the arguments to call
     it with, or the KeyError of the lookup. Once any navigation has been
     accepted it cannot fail; before that it fails only on page "main" with no
     stored arguments.
     */
    method Show() returns (r: Result<Call<V>>)
      ensures r == Render(State())
      ensures r.Ok? <==> page in pages
      ensures r.Ok? ==> r.value == Call(pages[page], args, kwargs)
      ensures r.Err? ==> r.error == KeyError(page)
      ensures Valid() && Navigated(Initial<V>(), history) ==> r.Ok?
      ensures Valid() && r.Err? ==>
                !Navigated(Initial<V>(), history) && page == InitialPage && args == [] && kwargs == map[]
    {
      if page in pages {
        r := Ok(Call(pages[page], args, kwargs));
      } else {
        r := Err(KeyError(page));
      }
      if Valid() {
        ShowableFromInitial<V>(history);
      }
    }
  }
}
