# streamlit-flow router, modelled in Dafny

streamlit-flow is a small screen-flow router for Streamlit apps. An `App` object keeps four things:

- a registry of named pages (view functions);
- the name of the current page, which starts as `"main"`;
- the positional and keyword arguments stored for the next render.

`route` registers a view under a name. `next` checks a page name against the registry, then sets the current page and the stored arguments. `goto` does the same as `next` and then asks Streamlit to rerun the script, while `go` only asks for the rerun. `show` looks up the current page and calls it with the stored arguments. `initialize` is a get-or-insert on Streamlit's per-session store. It keeps one object, such as the router, alive across reruns.

The project has three files:

- `router.dfy` (module `Router`) holds the router's state as a value and its three transitions as functions: `Register`, `Navigate` and `Render`. It also defines traces of calls, `Run` over a trace, and the lemmas about them. The main lemma is reachability. Registration never removes a name, and `next` only accepts registered names. So once one navigation has been accepted, `show` always finds its page.
- `app.dfy` (module `Flow`) holds class `App`, whose methods update its fields in place. Its invariant `Valid()` says the fields equal `Run` of the recorded calls from a fresh router. The trace lemmas therefore carry over to the object.
- `session.dfy` (module `Session`) holds the session store as class `SessionState` and `initialize` as its method `Initialize`. It also holds the pure function `Initialized`, its idempotence lemma, and a lemma that repeated script runs keep the first stored value. A factory whose call raises stores nothing, and the next run calls it again.

View functions are opaque identifiers (`ViewId`). The router never looks inside the arguments it stores, so their type is a type parameter `V`. `show` returns the call it would make (`Call`: view, args, kwargs) and does not run the view. An exception (`ValueError`, `KeyError`) becomes an `Outcome.Fail` or `Result.Err` value. Calls to `st.rerun()` are counted in the ghost field `App.reruns`. Calls to a factory default are counted in the ghost field `SessionState.factoryCalls`.

## Model

| member | source | states |
|---|---|---|
| Flow.App.constructor | streamlit_flow/__init__.py:25-30 | a new router is on page "main" with empty args, empty kwargs and an empty registry, and no calls recorded |
| Flow.App.Route | streamlit_flow/__init__.py:54-59 | route(name)(f) sets pages[name] to f (overwriting any earlier entry) and returns f; the registry keeps every name it had; page, args and kwargs are unchanged |
| Flow.App.Next | streamlit_flow/__init__.py:37-43 | raises PageNotKnown exactly when the target is not registered, and then changes nothing; otherwise sets page, args and kwargs to the given ones; the registry is never changed |
| Flow.App.Goto | streamlit_flow/__init__.py:32-35 | the same effect on router state and the same error as Next; one rerun is requested exactly when the navigation is accepted |
| Flow.App.Go | streamlit_flow/__init__.py:45-47 | requests one rerun, changes no router state and keeps the invariant |
| Flow.App.Show | streamlit_flow/__init__.py:49-52 | returns exactly what `Render` gives for the object's state; succeeds exactly when the current page is registered, selecting pages[page] with exactly the stored args and kwargs, and otherwise raises KeyError; after any accepted navigation it cannot fail; when it fails, the router is still on "main" with no stored arguments |
| Router.RegisterSpec | streamlit_flow/__init__.py:57 | registering adds exactly the name to the registry's names, maps it to the view, keeps every other entry, and leaves the navigation fields as they were |
| Router.NavigateSpec | streamlit_flow/__init__.py:39-43 | navigation fails exactly when the name is unregistered, with the ValueError for that name; on success the new state has the same registry and the given page and arguments, and show can find its page |
| Router.RenderSpec | streamlit_flow/__init__.py:51-52 | rendering succeeds exactly when the current page is registered and then calls pages[page] with args and kwargs; otherwise it is the KeyError for the current page |
| Router.InitialNotShowable | streamlit_flow/__init__.py:25-30 | show on a fresh router fails with KeyError("main"), because the registry starts empty |
| Router.StepSpec | streamlit_flow/__init__.py:39-43 | one route or next call never removes a registered name, keeps show able to find its page, and only an accepted navigation moves the page or the stored arguments |
| Router.RunKeepsNames | streamlit_flow/__init__.py:57 | over any sequence of route and next calls, the set of registered names only grows |
| Router.ShowableAfterNavigate | streamlit_flow/__init__.py:39-41 | after an accepted navigation, show finds its page whatever route and next calls follow |
| Router.FieldsUntilNavigate | streamlit_flow/__init__.py:39-43 | until a navigation is accepted, the current page and the stored arguments stay what they were |
| Router.ShowableFromInitial | streamlit_flow/__init__.py:25-52 | from a fresh router, show succeeds exactly when a navigation has been accepted or "main" has been registered; when it fails, the router is still on "main" with empty arguments |
| Session.Initialized | streamlit_flow/__init__.py:61-70 | after initialize, no existing entry changes and no name other than the key is added; the key is present exactly when it already was or the default produced a value; a missing key gets a plain default as it is, or what a factory returned; a raising factory leaves the store as it was |
| Session.InitializeIdempotent | streamlit_flow/__init__.py:63-64 | once initialize has stored a value under the key, a further initialize of it changes nothing, whatever default it is given |
| Session.RerunKeepsFirst | streamlit_flow/__init__.py:61-70 | when script runs each initialize the same key: if the first run leaves a value there, the store ends as it was after that run, however many runs follow; if the first run's factory raised, the store is untouched and the later runs start over |
| Session.SessionState.Initialize | streamlit_flow/__init__.py:61-70 | with the key present, returns the stored value, leaves the store unchanged and calls no factory; otherwise stores and returns what the factory returned (one factory call) or the plain default itself (no call); a factory that raises is called once, stores nothing, and its exception propagates |

## Left out

- `st.rerun()` is a call into the host framework that raises to restart the script. The model counts rerun requests in a ghost field. It does not model the restart or the code that is skipped after the call.
- The bodies of the view functions are not modelled, and neither are their side effects (`st.write`, `st.button`). `show` returns the call it would make, not the view's return value. A view that rejects the stored arguments (a Python `TypeError`) is not modelled.
- `route(name)` returns a decorator, and that decorator does the registration. The model merges the two steps into one method, `Route(name, view)`.
- `hasattr(default, "__call__")` becomes the constructor tag of `Default`. A factory is modelled by what its call does: it returns a given value or raises. So every call of the same factory behaves the same way, and the type of the exception is not kept.
- Python rejects keyword arguments named `page` or `self` to `next` and `goto` with a `TypeError` before the body runs. The model accepts any keyword map.
- Registry and store keys are strings. Python accepts any hashable key. Arguments are a type parameter, because the router never looks inside them.
- example.py is a demo script that wires buttons to `goto` and has no logic of its own. The lifetime of a browser session and concurrency between sessions belong to the host framework.
