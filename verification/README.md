# A model of the stateful core of Denorid

Denorid is a framework for server applications. Most of it adapts libraries; the parts with algorithmic or protocol
state of their own are modelled here, and properties of the model are proved.

* **The injector.** `Container` is a class with the fields of the original: providers, cached singletons, tokens in
  progress, children, exports, a shared global container, recorded instances, named contexts. `Resolve` searches its own
  providers, then exporting children, then the global container, and constructs what it finds by the mode of the
  provider. The fixed part of all containers is a graph on values (`InjectorGraph`), the changing part a `World`
  (`InjectorState`); every method says what its call did to the world. Application code (constructors, factories, field
  expressions) is a `Host` whose replies are arbitrary and logged. `InjectorExamples` builds small applications for the
  less expected answers.
* **Modules.** `ModuleCompiler` walks import graphs that may be cyclic; `ContainerBuilder` turns the result into
  containers; `Create` compiles, builds and initialises an application; `InjectorContext` runs the lifecycle hooks. The
  testing builder puts mocks and overrides before all that.
* **TCP transport.** The codec reads a stream in arbitrary chunks. Client and server are classes; `TcpSystem` puts them
  together as a step system over byte queues, with any number of connections that may be cut at any byte.
* **Request/reply clients.** `PendingRequests` is one event system for all of them; the RPC, RabbitMQ and TCP client
  classes are proved to make exactly its steps.
* **Command line.** The argv pre-scan and parser, with what each spelling of an option means (`ArgvSpellings`), and the
  markup formatter with a model of what a terminal shows; `Markup` reads the output as a terminal does and compares it
  with the meaning of a tree of styled text. SGR sequences are those of section 8.3.117 of ECMA-48.
* **Smaller pieces.** Two-stage path composition and the order of exception filters.

## What was found

Where the code and its documentation disagree, the model follows the code.

* A search does not stop at a token that is found but cannot be built because something *it* requires is not found: the
  error has the same class, so the search falls through to later locations. `ModeAgrees` says when `getProviderMode`
  names the provider that answers with a value: exactly when that provider lacks nothing, wherever the token is
  `Settled`. In `AskForMode` the look-up names a transient provider and the answer is the singleton of another
  container. Apart from that, a healthy call fails only for a missing token (`Succeeds`).
* The instances of a request are kept under the token alone, whichever container made them. So within one request a
  token always has one instance (`RequestIdentity`, on every graph), but the provider of the container that answers need
  not have made it, and a container answers for a token that its own provider could never build (`AskForMissing`). That
  is the one way in which a missing token gets a value: `Settled` shuts it out. It holds where the first location lacks
  nothing, and everywhere when the request-scoped providers of each token all lack something or none does
  (`UniformIsSettled`). So a global module's provider, which the global container registers too, may unsettle a token
  only when the module's container can build it and the global one cannot.
* What a container passed over leaves behind stays with the request. When the first location answers, its own provider
  made the value exactly when the request had no instance before, or one of that container's; a later location needs,
  besides, that what was passed over before it cannot come to another provider of the token (`MadeHere`). `AskThrough`
  is a request that had no instance and is answered by one container with the instance of another, made within a failed
  attempt. `ReachIsByPath` says what a call can come to.
* An instance of a request is replaced only when another container's provider runs within its construction
  (`OneInstance`), which is never when the call can come to no such provider (`OneInstanceAtFirst`); `AskBoth` is a
  request in which an instance made on the way keeps the one that was replaced.
* `onApplicationShutdown` clears only the root container, so a second `close` calls the destroy and shutdown hooks of
  imported modules again (`TwoCloses`); after a close that failed in a hook before shutdown it calls those of all
  modules. The passes cover what the containers of modules have recorded (`PassesCoverModules`): a global module's
  provider that was built in the global container is in no pass, except through an alias of a module, which records what
  it hands on. Init hooks run only on what initialisation asked for, from the container of a module for a token that it
  registers (`HookedIsHome`); what was made on the way, or in the global container, is recorded without one.
* Containers are kept by class. When a class is imported in two forms, the form that is built first wins, the other one
  gets no container, and neither does what only the other one imports: initialisation then stops with a `TypeError`
  (`SecondFormIsNotBuilt`, `ContainersDecide`).
* A module class that the module does not provide itself is registered as an import provides it, if one does
  (`OwnProviderWins`).
* A mock is made for every direct dependency without an original provider, also when an import would provide it
  (`MockedOnce`).
* Sending that throws after the id was put in the pending map leaves the id there although the promise is settled. In
  the RPC client a reply that cannot be decoded is dropped from the map and its promise is never settled, not even by
  closing. `ExactUnlessFault` says that these are exactly the ways in which the map and the promises come apart.
* A body of two to the 32 bytes or more is framed with a wrapped length: it is refused or read back cut to that length
  (`FrameSurvivesWithinLimit`).
* A closing tag ends the innermost style whatever its name, so an unknown closing tag inside a style is not printed
  (`Pieces`, `Restacked`). Escape sequences in the input are not protected (`EscapesBreakStripping`): stripping the
  decorated output gives the undecorated one exactly when no text between two styled pieces, and none within one,
  contains an SGR sequence (`DecorationOnlyDecorates`). An escape character alone does no harm.

## Model

| member | source | states |
|---|---|---|
| Injector.Container.Resolve | packages/injector/container.ts:291-328 | resolution ends on every acyclic container graph, whatever the dependencies; a token in progress gives the circular error with its chain; otherwise one location answers, in the order own, children, global, and every location before it was passed over for a missing requirement; the first location searched serves what the request holds, any other one after what was passed over; all that the call recorded or provided belongs to providers that it can come to; tokens in progress are restored, nothing cached is lost, and the request keeps its instances and receives exactly what was provided to it; every error has its ground in what the call can come to: a missing dependency, a declared cycle, a request-scoped provider |
| Injector.Container.ResolveElsewhere | packages/injector/container.ts:302-328 | only a not-found error lets the search go on to the next exporting child and then to the global container; what the attempts before left in the request is what the next one finds |
| Injector.Container.ResolveWithMode | packages/injector/container.ts:681-704 | the provider's mode decides where the value is cached and recorded |
| Injector.Container.ResolveSingleton | packages/injector/container.ts:716-736 | a cached singleton is returned without any effect; a new one is cached and recorded; after a failure nothing is cached for the token and it is no longer in progress, and it fails for want of a request only when something it can come to is request-scoped |
| Injector.Container.ResolveTransient | packages/injector/container.ts:752-766 | every call records a new instance, made from what its dependencies resolved to |
| Injector.Container.ResolveTransientWithContext | packages/injector/container.ts:783-811 | within a named context the cached instance is returned, and a new one is cached for it |
| Injector.Container.ResolveRequest | packages/injector/container.ts:930-958 | without a request the call fails; an instance that the request holds for the token is returned without any effect, whoever made it; otherwise the container's own provider makes one, which becomes the request's and is not recorded in the container |
| Injector.Container.Build | packages/injector/_normalized_provider.ts:49-108 | each of the five kinds of provider yields a value made from instances that its declared tokens resolved to |
| Injector.Container.InjectDependencies | packages/injector/container.ts:516-547 | every field is assigned what its token resolved to, put through its expression; an optional field is skipped only when its token is missing |
| Injector.Container.CanResolve | packages/injector/container.ts:215-233 | true exactly when a chain of children, each exporting the token, leads to a container that provides it or sees it in the global container |
| Injector.Container.GetProviderMode | packages/injector/container.ts:242-264 | the mode of the provider at the first location that resolution tries |
| Injector.Container.IsRequestScoped | packages/injector/container.ts:273-275 | true exactly when that mode is the request mode |
| Injector.Container.GetInstances | packages/injector/container.ts:557-569 | the recorded instances, recursively those of all reachable containers without duplicates |
| InjectorState.OwnInstancesFirst | packages/injector/container.ts:557-569 | the own records come first, each once, in the order in which they were recorded |
| Injector.Container.Register | packages/injector/container.ts:144-158 | providers are registered one after another |
| Injector.Container.Clear | packages/injector/container.ts:600-606 | providers, caches and records of this container are gone, those of others untouched |
| InjectorGraph.LastRegistered | packages/injector/container.ts:144-158 | for each token the last of its providers is registered |
| InjectorState.ModeOfProvider | packages/injector/_normalized_provider.ts:49-108 | the mode of each of the five kinds of provider: what the class or the factory says, for a factory without one what its class token says, and singleton otherwise |
| InjectorState.ProviderMakes | packages/injector/_normalized_provider.ts:49-108 | what each kind of provider makes: its value, an instance of its class with the fields filled, what its factory returned for the resolved arguments, or what another token resolves to |
| InjectorGraph.VisibleIffLocated | packages/injector/container.ts:215-233 | a token is visible along some chain of exporting imports exactly when the search has a location to try |
| InjectorGraph.ImportsInTurn | packages/injector/container.ts:302-328 | what the search tries for an import comes after all that it tries for the imports listed before, and the global container comes last |
| InjectorTheorems.CircularIsReal | packages/injector/container.ts:291-300 | a reported cycle is a chain of declared dependencies of one container whose last token reaches itself |
| InjectorTheorems.AcyclicNeverCircular | packages/injector/container.ts:291-300 | when dependencies can be ranked no cycle is ever reported |
| InjectorTheorems.CyclicNeverAnswers | packages/injector/container.ts:716-766 | a token on a cycle of required tokens never gets a value from its container, as long as every other request-scoped provider of such a token is itself stuck |
| InjectorTheorems.LostNeverAnswers | packages/injector/container.ts:291-328 | no container answers with a value for a token that neither it nor, for requests, any other container can ever build |
| InjectorTheorems.NotFoundMeansMissing | packages/injector/container.ts:302-328 | not-found is reported only for missing tokens, on every graph; a missing token never gets a value where it is settled: where no other container can supply requests with it or with what it lacks |
| InjectorTheorems.Succeeds | packages/injector/container.ts:291-328 | in a request or outside, when application code throws nothing, dependencies are ranked, what the call can come to lacks nothing, and nothing there is request-scoped or there is a request, the only error is that the token itself is missing; where it is settled the call succeeds exactly when it is not |
| InjectorTheorems.StepSucceeds | packages/injector/container.ts:291-328 | so in every run each such step succeeds exactly when its token is not missing |
| InjectorExamples.AskAtStart | packages/injector/container.ts:716-736 | a run of one step outside requests that answers with a singleton |
| InjectorGraph.UniformIsSettled | packages/injector/container.ts:930-942 | every token is settled when the request-scoped providers of each token all lack something or none does |
| InjectorGraph.CompleteIsSettled | packages/injector/container.ts:215-233 | every token is settled when all requirements are visible |
| InjectorExamples.AskForMissing | packages/injector/container.ts:930-958 | a run of two steps in one request: container 2 makes an instance, then container 1, where the token is missing and not settled, answers with it |
| InjectorTheorems.InvisibleIsNotFound | packages/injector/container.ts:291-328 | a token that cannot be seen fails with not-found and has no effect |
| InjectorTheorems.CompleteIsExact | packages/injector/container.ts:215-233 | when all requirements are visible, not-found is reported exactly for invisible tokens, and the first location always answers |
| InjectorTheorems.ModeAgrees | packages/injector/container.ts:242-264 | mode look-up and resolution select the same provider unless the first one lacks a requirement; where the token is settled a value comes from the first provider exactly when that lacks nothing |
| InjectorTheorems.AnswererIsFixed | packages/injector/container.ts:291-328 | where the token is settled, a value comes from the first location whose provider lacks nothing |
| InjectorExamples.ModeMisleads | packages/injector/container.ts:242-328 | three containers where the look-up says transient and every answer is the singleton of the global container |
| InjectorExamples.AskForMode | packages/injector/container.ts:242-328 | a run in which the look-up at container 2 says transient and the global container answers with its singleton |
| InjectorTheorems.RequestIdentity | packages/injector/container.ts:930-958 | within one request a request-scoped token keeps its instance, whichever container is asked and however many provide it |
| InjectorTheorems.RequestIdentityOverRun | packages/injector/container.ts:930-958 | over any run, two steps of one request for one request-scoped token return the same instance |
| InjectorTheorems.RequestMaker | packages/injector/container.ts:930-958 | a request-scoped value was made by some container's request-scoped provider of the token, by that of the answering container when no other can make one |
| InjectorTheorems.MadeHere | packages/injector/container.ts:302-328 | for whole resolutions: the answering container made the value exactly when the request held none for the token before the call, or one of that container's, provided that what was passed over can come to no other provider of the token; for an answer of the first location there is nothing to provide |
| InjectorExamples.AskThrough | packages/injector/container.ts:304-319 | a run in which it is not: the request holds nothing, container 2 is passed over, and container 3 answers with what container 1 made meanwhile |
| InjectorGraph.ReachIsByPath | packages/injector/container.ts:291-328 | a provider can come to exactly those that a chain of declared dependencies, each looked for where the search tries it, leads to |
| InjectorTheorems.OneInstance | packages/injector/container.ts:943-953 | a construction replaces an instance exactly when another container's provider of the token ran within it, which is never when it can come to none |
| InjectorTheorems.OneInstanceAtFirst | packages/injector/container.ts:943-953 | so for whole calls that the first location answers, with a condition on the graph alone under which the request gets one instance |
| InjectorExamples.AskBoth | packages/injector/container.ts:930-958 | a run of two steps in one request: containers 2 and 1 provide one token and both answer with the instance of 2, while what was made on the way holds the instance of 1 that was replaced |
| InjectorTheorems.RunAdvances | packages/injector/container.ts:716-766 | over any run nothing cached or recorded is lost and the tokens in progress are those from before |
| InjectorTheorems.SingletonIdentity | packages/injector/container.ts:716-736 | over any run, answers of one container for one singleton token are the same instance, recorded once |
| InjectorTheorems.SameAnswerer | packages/injector/container.ts:291-328 | over any run, all values returned to one container for one token come from one container, where the token is settled |
| InjectorTheorems.SingletonIdentityPerContainer | packages/injector/container.ts:716-736 | so, where the token is settled, all values one container returns for one singleton token are one instance |
| InjectorTheorems.ContextIdentity | packages/injector/container.ts:783-811 | over any run, a named context keeps its instance of a transient token of one container |
| InjectorTheorems.LaterRequestsAreCached | packages/injector/container.ts:716-736 | once answered from its first location a singleton is returned by every later call without any effect |
| InjectorState.CyclicIsNeverBuilt | packages/injector/container.ts:716-766 | a container neither records nor gives a request an instance for a token on such a cycle, and no request gets one from elsewhere |
| InjectorState.EachInstanceOnce | packages/injector/container.ts:557-569 | shared children included, every recorded instance of every reachable container occurs exactly once |
| ModuleGraph.InitOrderIsSound | packages/injector/_module_compiler.ts:131-150 | the order holds exactly the reachable modules, each once, the root last; an import comes first unless it reaches its importer |
| ModuleGraph.ImportsInOrder | packages/injector/_module_compiler.ts:131-150 | imports come in the order listed: an earlier import and all it needs come before a later one that no import listed before it needs |
| ModuleGraph.DestroyOrderIsSound | packages/injector/_module_compiler.ts:159-161 | the destroy order is the reverse: on acyclic imports importers come first |
| ModuleCompilation.ModuleCompiler.Compile | packages/injector/_module_compiler.ts:62-115 | compilation ends on cyclic imports, compiles each module once, finishes modules in depth-first order, and fails only when a class that is not a module is reachable |
| ModuleCompilation.InitWalk.Visit | packages/injector/_module_compiler.ts:135-146 | the recursive walk adds modules in depth-first order |
| ModuleCompilation.GetModulesInInitOrder | packages/injector/_module_compiler.ts:131-150 | returns exactly the initialisation order |
| ModuleCompilation.GetModulesInDestroyOrder | packages/injector/_module_compiler.ts:159-161 | returns exactly its reverse |
| ModuleCompilation.Load | packages/injector/_module_compiler.ts:62-122 | on a fresh compiler modules finish in initialisation order; global providers are those of the global modules in that order; it fails exactly when a reachable class is not a module |
| ModuleCompilation.AcyclicListsAreFlat | packages/injector/_module_compiler.ts:99-106 | on acyclic imports a provider list is the imports' lists in order followed by the module's own providers |
| ContainerGraph.DynamicAdds | packages/injector/_module_compiler.ts:179-205 | a dynamic module adds to the imports and exports of its class, its providers win, and it may itself say whether it is global |
| ContainerGraph.OwnProviderWins | packages/injector/injector_context.ts:134-152 | a container registers exactly the module's tokens: for each the last own provider, never an imported one |
| ContainerGraph.ModuleRegisters | packages/injector/injector_context.ts:134-152 | the container built for a module chooses in this way over the provider lists of its imports, in order |
| ApplicationTheorems.ExportsDecide | packages/injector/container.ts:215-233 | of what it does not register, a built container sees exactly what a container built for one of its imports exports and sees, and what the global one provides |
| ContainerGraph.GraphIsDag | packages/injector/injector_context.ts:112-132 | the containers of an application form the graph on which resolution is proved to end |
| ContainerGraph.DistinctClassesAreBuilt | packages/injector/injector_context.ts:112-155 | every module has a container of its own when no class is imported in two forms |
| ApplicationTheorems.SecondFormIsNotBuilt | packages/injector/injector_context.ts:112-120 | a class imported in two forms: what only the second form imports gets no container |
| InjectorContexts.RegisterOwn | packages/injector/injector_context.ts:134-152 | the loops over providers and own tokens register the chosen providers |
| InjectorContexts.ContainerBuilder.BuildContainer | packages/injector/injector_context.ts:112-155 | one container per module class, imports first, with the exports, children and providers of the form that was built; a second form of a class gets the container of the first |
| InjectorContexts.Create | packages/injector/injector_context.ts:96-218 | fails on a class that is not a module; otherwise initialisation is a run of the injector from untouched containers that resolves the modules' tokens in order, up to a module that fails or has no container |
| Lifecycle.InitAll | packages/injector/injector_context.ts:190-215 | resolves, module by module, all own tokens that are not request-scoped and then the module class; failures of providers are ignored; it ends without an error after all of them, or at the first module without a container, or at the first whose class is not resolved or whose init hook throws, and everything before was passed; init hooks run on first sight of an instance |
| ApplicationTheorems.ContainersDecide | packages/injector/injector_context.ts:190-195 | creation succeeds only when every module class has a container, and fails for want of one only for a class that has none |
| ApplicationTheorems.InitIsAtHome | packages/injector/injector_context.ts:190-215 | when no class is imported in two forms, initialisation asks only containers of modules, each for tokens that it registers, and each answers itself |
| ApplicationTheorems.CreationSucceeds | packages/injector/injector_context.ts:190-215 | when no class is imported in two forms, application code throws nothing and every module class can be made outside requests, creation succeeds, whatever is wrong with other providers |
| Lifecycle.InitHooksRunOnce | packages/injector/injector_context.ts:179-189 | the init hook runs exactly once on every resolved instance that has it |
| ApplicationTheorems.HookedIsHome | packages/injector/injector_context.ts:179-207 | so an init hook is called only on what a module's container holds for a token that it registers |
| Lifecycle.InjectorContext.OnApplicationBootstrap | packages/injector/injector_context.ts:411-436 | once per context, the hook runs on all instances in order; all errors are collected |
| Lifecycle.InjectorContext.OnBeforeApplicationShutdown | packages/injector/injector_context.ts:453-478 | once per context, in reverse order |
| Lifecycle.InjectorContext.OnApplicationShutdown | packages/injector/injector_context.ts:488-521 | destroy hooks, then shutdown hooks, both in reverse order, whatever they throw; then only the root container is cleared |
| Lifecycle.InjectorContext.Close | packages/injector/injector_context.ts:529-532 | when a hook before shutdown throws, nothing else runs and nothing is cleared; otherwise only the root container is cleared |
| Lifecycle.TwoCloses | packages/injector/injector_context.ts:529-532 | a second close skips the hooks before shutdown and calls the destroy and shutdown hooks of imported modules again, and of the root module when the first close did not get to them |
| Lifecycle.PassRunsOnce | packages/injector/injector_context.ts:411-521 | a pass calls the hook exactly once on every instance recorded in a reachable container |
| Lifecycle.SelectedInOrder | packages/injector/injector_context.ts:411-521 | the calls of a pass follow the order of the instances, each for an instance of its own that has the hook, and none that has it is left out |
| Lifecycle.ErrorsAreCollected | packages/injector/injector_context.ts:411-521 | the reported errors are exactly those of the calls that threw, in their order |
| ApplicationTheorems.PassesCoverModules | packages/injector/container.ts:557-569 | a pass from the root covers exactly what the containers built for modules have recorded |
| Lifecycle.AfterShutdown | packages/injector/injector_context.ts:515-516 | after a shutdown exactly the instances of imported modules are left for another pass |
| Testing.TestingModuleBuilder.BuildMockedProviders | packages/core/testing/testing_module_builder.ts:171-202 | mocks are made for the undeclared direct dependencies, in order of first occurrence |
| Testing.MockedOnce | packages/core/testing/testing_module_builder.ts:171-202 | no token is mocked twice, and exactly the undeclared direct dependencies are |
| Testing.MockedWhenInjected | packages/core/testing/testing_module_builder.ts:171-202 | a token is mocked exactly when the class of some original provider injects it into a field and no original provider has it as its token |
| Testing.Precedence | packages/core/testing/testing_module_builder.ts:129-141 | the last override wins, then a mock, then the last original provider |
| Testing.TestingRegisters | packages/core/testing/testing_module_builder.ts:129-169 | the container of a testing module registers the effective provider, whatever its imports provide |
| Testing.TestingModuleBuilder.Compile | packages/core/testing/testing_module_builder.ts:129-169 | fails when a class that is not a module is reachable; the root container of the created application registers the effective provider of every token that has one |
| TcpCodec.EncodeFrame | packages/microservices/tcp/_codec.ts:16-26 | four bytes of length, most significant first and modulo two to the 32, then the body |
| TcpCodec.FrameLayout | packages/microservices/tcp/_codec.ts:16-26 | the four bytes weighted from the most significant first are the length modulo two to the 32 |
| TcpCodec.ParseByLength | packages/microservices/tcp/_codec.ts:52-72 | the first four bytes, weighted likewise, decide: over 64 MiB is refused, more than there is ends the stream, otherwise that many bytes are the body |
| TcpCodec.ReadExact | packages/microservices/tcp/_codec.ts:74-98 | exactly the next n bytes under any chunking, or nothing |
| TcpCodec.ReadFrame | packages/microservices/tcp/_codec.ts:52-72 | exactly what the stream says: a body, the end, or a length over the limit |
| TcpCodec.StreamRoundTrip | packages/microservices/tcp/_codec.ts:16-72 | any list of bodies within the limit survives; the first body over the limit stops the reading after those before it |
| TcpCodec.TruncatedStream | packages/microservices/tcp/_codec.ts:74-98 | a stream cut anywhere gives the bodies that arrived whole and then ends |
| TcpCodec.FrameSurvivesWithinLimit | packages/microservices/tcp/_codec.ts:5-72 | a frame is read back as its body exactly when the body is within 64 MiB; any other is refused or cut to its length modulo two to the 32 |
| TcpTransport.ServerConnection.HandleConnection | packages/microservices/tcp/server.ts:71-101 | every frame before the first unreadable one is dispatched once, in order; the bytes written are the responses to the messages |
| TcpTransport.ServerConnection.HandleMessage | packages/microservices/tcp/server.ts:103-125 | a message is dispatched once and gets one response at most |
| TcpTransport.ResponsesFollowMessages | packages/microservices/tcp/server.ts:71-131 | each response belongs to a message of its own, in the same order; events get none; every message has a response |
| TcpTransport.DecodedAre | packages/microservices/tcp/server.ts:71-101 | the frames dispatched are what the bodies decode to, one after another, up to the first that decodes to none |
| TcpTransport.ResponsesAreWritten | packages/microservices/tcp/server.ts:103-131 | the bytes written are the frames of the encoded responses, in order |
| TcpTransport.TcpClient.Send | packages/microservices/tcp/client.ts:92-116 | the id is pending and the frame written, or the write throws and the id is left in the map |
| TcpTransport.TcpClient.OnWriteFailed | packages/microservices/tcp/client.ts:108-113 | the request is no longer pending and is rejected with the error of the write, unless it was settled; nothing else changes |
| TcpTransport.TcpClient.HandleFrame | packages/microservices/tcp/client.ts:165-192 | a response with a value resolves the pending request of its own id with that value, one with an error rejects it with that message; all else is left alone |
| TcpTransport.TcpClient.RejectPending | packages/microservices/tcp/client.ts:61-82 | everything pending is rejected |
| TcpTransport.TcpClient.ReadLoop | packages/microservices/tcp/client.ts:161-204 | the responses in the stream are delivered in order, all of them unless a read fails, then the rest is rejected |
| TcpTransport.FirstResponseCounts | packages/microservices/tcp/client.ts:161-204 | a request that waits while the stream is read gets what the first response with its id says, value or error, and without one it is rejected as closed |
| TcpSystem.NextKeeps | packages/microservices/tcp/client.ts:92-204 | every step of client, server and network keeps the invariant of the whole system |
| TcpSystem.NoCrossWiring | packages/microservices/tcp/client.ts:161-204 | in every run a settled request was dispatched by the server with its own pattern and data and that outcome |
| TcpSystem.SettledByAction | packages/microservices/tcp/client.ts:92-204 | in every run, what a settled request was told was given to it by one action, at the state in which it was first settled: its response with that value or error, its own failed write, or, for a rejection as closed, the end of a connection |
| TcpSystem.FirstOutcomeIsFinal | packages/microservices/tcp/client.ts:92-204 | conversely, the first outcome given to a waiting request is what it is settled with at every later state |
| TcpSystem.ReadIsSettled | packages/microservices/tcp/client.ts:161-204 | in every run a request whose response was read is settled with the outcome of that response, unless its write had failed or a connection had ended before |
| TcpSystem.QuietIsSettled | packages/microservices/tcp/client.ts:92-204 | in every run, once nothing is under way on a connection that was never damaged, every message sent on it is settled |
| TcpSystem.ResponsesFollowRequests | packages/microservices/tcp/server.ts:71-131 | in every run, on every connection, frames are dispatched in the order sent, responses follow the order of the requests, one each at most, and what the client has decoded are the first of these responses |
| TcpSystem.DispatchedOnce | packages/microservices/tcp/server.ts:71-101 | in every run no request is dispatched twice |
| PendingRequests.StepKeeps | packages/amqp/clients.ts:229-332 | every event keeps the invariant of the pending map and settles no request twice |
| PendingRequests.StepMeans | packages/amqp/clients.ts:229-332 | what every event does, told without the step function: a timeout, a failed write, a refusal or a reply ends the request, with no entry and no timer left and exactly its own outcome unless it was settled, and touches no other request; a close rejects all that wait |
| PendingRequests.ExactUnlessFault | packages/amqp/clients.ts:252-332 | the map stays equal to the unsettled promises exactly when the event is no fault |
| PendingRequests.PendingIffUnsettled | packages/microservices/rmq/client.ts:59-226 | in every run without faults the pending ids are the issued unsettled ones, and armed timers are the pending ids |
| PendingRequests.FirstSettlementIsFinal | packages/microservices/tcp/client.ts:92-204 | in every run the first settlement of a request is final |
| PendingRequests.SettledByItsOwn | packages/amqp/clients.ts:309-332 | every settlement was made by an event about that request, or by the end of the connection |
| PendingRequests.SettledByTheFirst | packages/amqp/clients.ts:229-332 | in every run the first event that ends a request settles it, with its own outcome, for good |
| PendingRequests.SettledIffEnded | packages/amqp/clients.ts:229-332 | in every run exactly the requests that some event has ended are settled |
| PendingRequests.ShutSettlesAll | packages/amqp/clients.ts:265-282 | closing leaves nothing pending and no timer armed, and settles all but undecodable replies |
| PendingRequests.OrphansStay | packages/amqp/clients.ts:322-325 | a request whose reply could not be decoded is never settled |
| AmqpClients.RpcClient.Request | packages/amqp/clients.ts:229-257 | the request step of the event system, with its timer |
| AmqpClients.RpcClient.OnTimeout | packages/amqp/clients.ts:238-243 | the timeout step: the entry and its timer are gone, and the promise is rejected as timed out unless it was settled |
| AmqpClients.RpcClient.HandleReply | packages/amqp/clients.ts:309-332 | the reply step; the entry and its timer are gone before the reply is decoded; a value resolves the promise with that value, an error rejects it with its message |
| AmqpClients.RpcClient.Close | packages/amqp/clients.ts:265-282 | the closing step, timers included |
| RmqClients.RmqClient.Send | packages/microservices/rmq/client.ts:93-130 | the request step: published and pending; refused, rejected and not pending; or thrown, rejected and left in the map |
| RmqClients.RmqClient.HandleReply | packages/microservices/rmq/client.ts:188-226 | the reply step; an undecodable reply rejects; a value resolves the promise with that value, an error rejects it with its message |
| RmqClients.RmqClient.Close | packages/microservices/rmq/client.ts:59-81 | the closing step |
| RmqClients.OnlyThrowsAreFaults | packages/microservices/rmq/client.ts:93-226 | the only fault of this client is a publish that throws |
| ArgvParser.PreScanArgv | packages/core/cli/_argv_parser.ts:57-99 | global flags count exactly before the separator; the first token there without a dash is the command; all else is kept in order |
| ArgvSpellings.PreScanKeeps | packages/core/cli/_argv_parser.ts:57-99 | the first token without a dash is the command, and all else but the global flags is kept in order |
| ArgvSpellings.HeadEnds | packages/core/cli/_argv_parser.ts:57-99 | flags and command are looked for up to the first separator |
| ArgvParser.IndexAccepts | packages/core/cli/_argv_parser.ts:157-181 | definitions are accepted exactly when no name and no shortcut is declared twice |
| ArgvParser.IndexFinds | packages/core/cli/_argv_parser.ts:157-181 | every option is found by its name and its shortcut, and nothing else is |
| ArgvParser.ConsumeLongOption | packages/core/cli/_argv_parser.ts:183-225 | records what the items of a long option say, or reports their error |
| ArgvParser.ConsumeShortOption | packages/core/cli/_argv_parser.ts:227-296 | likewise for short options, values and combined flags |
| ArgvParser.Output.Add | packages/core/cli/_argv_parser.ts:298-322 | a repeatable option collects, any other refuses a second value |
| ArgvParser.ApplyDefaults | packages/core/cli/_argv_parser.ts:339-370 | the defaults of the options not given, or the first required one that is missing |
| ArgvParser.ParseCommandArgs | packages/core/cli/_argv_parser.ts:115-155 | the loops compute the meaning of the whole line, result or error |
| ArgvTheorems.SpellingsDoNotMatter | packages/core/cli/_argv_parser.ts:183-322 | putting every option into its canonical spelling changes neither the result nor the error |
| ArgvTheorems.SameCanonicalSameResult | packages/core/cli/_argv_parser.ts:101-108 | lines that differ only in spelling are parsed alike |
| ArgvSpellings.ShortWithEquals | packages/core/cli/_argv_parser.ts:237-254 | `-c=v` is parsed like `--name=v`, after any options and before any rest of the line |
| ArgvSpellings.ShortWithNext | packages/core/cli/_argv_parser.ts:257-278 | so is `-c v`, when the value does not look like an option |
| ArgvSpellings.LongWithNext | packages/core/cli/_argv_parser.ts:183-225 | so is `--name v` |
| ArgvSpellings.CombinedFlags | packages/core/cli/_argv_parser.ts:257-296 | `-abc` is parsed like the three flags by their names, for any number of flags |
| ArgvSpellings.PlainTokensAreArguments | packages/core/cli/_argv_parser.ts:115-155 | tokens without a dash, and the dash alone, are arguments in their order |
| ArgvSpellings.UnknownName | packages/core/cli/_argv_parser.ts:183-225 | a name that is not declared is the error, with or without a value |
| ArgvSpellings.FlagWithValue | packages/core/cli/_argv_parser.ts:183-225 | a flag with a value is the error |
| ArgvSpellings.ValueIsMissing | packages/core/cli/_argv_parser.ts:183-296 | an option at the end or before a token that looks like one needs a value, in both spellings |
| ArgvSpellings.CannotBeCombined | packages/core/cli/_argv_parser.ts:280-296 | among combined flags the first shortcut that is unknown or takes a value is the error |
| ArgvSpellings.RefusedValues | packages/core/cli/_argv_parser.ts:298-337 | a number must be one, and an option that is not repeatable is not given twice |
| ArgvTheorems.DefaultsMeaning | packages/core/cli/_argv_parser.ts:339-370 | defaults apply exactly to what was not given, and fail exactly for a missing required option, naming the first one |
| ArgvTheorems.RoundTrip | packages/core/cli/_argv_parser.ts:57-155 | a printed command line is read back as the command, the options with the defaults of the others, and the arguments |
| Formatter.OutputFormatter.Format | packages/core/cli/_formatter.ts:159-200 | the loop renders exactly the pieces of the input, decorated or not |
| Markup.FormattedAsMeant | packages/core/cli/_formatter.ts:159-252 | for every markup tree a terminal shows each character of the formatted text in the styles of its own path in the tree, inner ones over outer ones, and nothing else, exactly when no stretch of its text contains an SGR sequence; without decoration the characters are the same |
| Markup.EveryInputIsATree | packages/core/cli/_formatter.ts:159-200 | every input is the text of such a tree, with tags that are never closed, unknown, or close nothing |
| Formatter.NextTagIsLeftmost | packages/core/cli/_formatter.ts:78-78 | the scanner finds the leftmost occurrence of the tag pattern, which is the only one at its place |
| Formatter.OutputFormatter.Collapse | packages/core/cli/_formatter.ts:210-230 | computes the combined style of a stack |
| Formatter.OutputFormatter.Wrap | packages/core/cli/_formatter.ts:232-252 | text between the sequence of its codes and a reset, or as it is without codes |
| Terminal.InnermostDecides | packages/core/cli/_formatter.ts:210-230 | the innermost style that sets a colour decides it; every effect of every open style is kept once |
| Terminal.DecorationOnlyDecorates | packages/core/cli/_formatter.ts:159-252 | for every input: stripping the decorated output gives the undecorated one, and each character is shown in the rendition of its piece, exactly when no stretch of text contains an SGR sequence; every start is reset before the next exactly when this is so within each stretch |
| Terminal.EscapesBreakStripping | packages/core/cli/_formatter.ts:202-252 | an input with an escape sequence for which both laws fail |
| Paths.TrimTakesSlashes | packages/core/http/controller_mapping.ts:178-178 | trimming a segment takes away slashes and nothing else, and leaves none at either end |
| Paths.TwoStages | packages/core/http/controller_mapping.ts:176-180 | joining a joined prefix with more segments is joining all at once |
| Paths.JoinedShape | packages/core/http/controller_mapping.ts:166-180 | one leading slash, none at the end unless root; root exactly when every segment is empty; joining again changes nothing |
| Paths.OneMoreSegment | packages/core/http/controller_mapping.ts:166-180 | each further segment that is more than slashes is appended, trimmed, behind one slash; others change nothing |
| Paths.RoutePath | packages/core/http/controller_mapping.ts:99-102 | a route's path composed in two stages is prefix, controller and route joined at once |
| ExceptionFilters.EntryList.Insert | packages/core/exceptions/handler.ts:192-204 | the entry goes before the first one of lower priority |
| ExceptionFilters.InsertionsSortStably | packages/core/exceptions/handler.ts:171-204 | after any registrations the entries of a class are its registrations, each once, stably sorted by descending priority |
| ExceptionFilters.ExceptionHandler.FiltersFor | packages/core/exceptions/handler.ts:107-113 | the filters of an exception class are in that order |

## Left out

- Overlapping asynchronous resolution: one resolution at a time; factory dependencies are resolved in order, where the original starts them together and lets them share the tokens in progress.
- Application code that calls back into the injector, or that throws the injector's own error classes.
- `ModuleRef`, tags, parent containers, `createChild`, `instantiateClass`, `clearContext`, `registerGlobal`, `beforeInit`, the export check of `InjectorContext.resolve`, and logging.
- InjectorContexts.ContainerBuilder.BuildContainer: does not model import graphs that are cyclic, on which the original does not end. The compiler itself is modelled on all graphs.
- InjectorContexts.Create: likewise; and a `Host` belongs to one application: no request has been served before its creation.
- InjectorTheorems.NotFoundMeansMissing: that a token which is not settled gets a value in some run is shown for one graph (`AskForMissing`), not for all.
- InjectorTheorems.MadeHere: that its condition on what was passed over is needed is likewise shown for one graph (`AskThrough`).
- Promises of dynamic modules as roots. The two caches of the compiler are one map, keyed by the class or by the dynamic-module object.
- Values assigned to fields are events in the log of the `Host`, not fields of application objects.
- Testing.TestingModuleBuilder.Compile: does not model `useCoreGlobals`, which registers two values in the global container, nor a mock factory that throws.
- TcpSystem.NoCrossWiring: assumes fresh ids, lossless serialisation, bodies shorter than two to the 32 bytes, and writes that transmit the whole frame or fail.
- TcpTransport.TcpClient.ReadLoop: the loop with nothing else going on; interleavings are the steps of `TcpSystem`. Retries while connecting, and a close that races with a connect, are left out.
- PendingRequests.SettledByItsOwn: payloads are opaque numbers; serialisation and its failure are parameters of the events.
- RmqClients.RmqClient.Send: connecting, queues, exchanges and the broker are not modelled; publishing has an arbitrary outcome.
- ArgvTheorems.RoundTrip: strings are sequences of 16-bit units of the basic plane, number parsing is an arbitrary function, and names that every JavaScript object inherits are treated as absent from an empty record.
- Formatter.OutputFormatter.Format: `apply` and the decision whether to decorate are left out.
- ExceptionFilters.InsertionsSortStably: priorities are integers; the concurrent calls of the filters and the collection of their results are left out.
- Route registration, guards, pipes, the scheduler, HTTP exceptions, connection registries, and adapters around libraries.
