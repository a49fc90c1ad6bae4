# Sv1Handler: the Stratum V1 server session of pleblottery

pleblottery is a solo-mining bridge: miners speak Stratum V1 to it, and it
builds their work from a Bitcoin block template. Each miner connection is
served by one `Sv1Handler`, which implements the server callbacks of the
Stratum V1 library (`IsServer`). The handler holds two fields: the block
template and an `is_authorized` flag.

This project models that handler in Dafny:

- `wrappers.dfy` (module `Wrappers`): `Option` and `Result`, as in Rust.
- `messages.dfy` (module `Messages`): the decoded requests the callbacks
  receive, the version-rolling parameters of the `mining.configure` answer,
  the fixed subscription identifier and extranonce values, and the mask
  negotiation. The server supports the mask `0x1FFFE000`, which is bits 13
  to 28. These are the sixteen general-purpose nVersion bits of BIP 320,
  offered through the version-rolling extension of BIP 310.
- `session.dfy` (module `Session`): the session state as a value, each
  callback as a `Call`, and `Run`, which replays a sequence of callbacks.
  Lemmas about every such sequence state authorization monotonicity, when the
  authorization gate is open, and which template a session holds.
- `handler.dfy` (module `Handler`): the class `Sv1Handler<Template>` with
  the fields `template` and `isAuthorized`. Its constructor and callbacks
  are stated against `Session`. `Authorize` and `UpdateTemplate` change the
  fields. The other callbacks have no `modifies` clause, so Dafny checks
  that they leave the session unchanged.

Several callbacks are placeholders, and the model keeps their behaviour
exactly as the code has it:

- Both subscriptions carry one fixed identifier, and every session gets the
  same one.
- Every session gets the same extranonce1.
- Every submitted share is accepted without any validation.
- A second `mining.authorize` on an authorized session is answered `false`.
- A version-rolling request that the Stratum V1 library rejects panics
  through `.expect` (src/lib/sv1/handler.rs:47).

The source marks `handle_subscribe`, `set_extranonce1` and
`set_extranonce2_size` as `// dummy` (src/lib/sv1/handler.rs:52, 93, 105).

## Model

| member | source | states |
|---|---|---|
| `Handler.Sv1Handler.constructor` | src/lib/sv1/handler.rs:21-24 | a new handler holds the given template and is not authorized |
| `Handler.Sv1Handler.New` | src/lib/sv1/handler.rs:16-25 | fails exactly when building the template failed, with the same error; otherwise returns a fresh, unauthorized handler around the built template |
| `Handler.Sv1Handler.UpdateTemplate` | src/lib/sv1/handler.rs:27-29 | the template becomes the template's own update applied to the block-template result; the authorization flag keeps its value |
| `Handler.Sv1Handler.HandleConfigure` | src/lib/sv1/handler.rs:33-50 | answers with version-rolling parameters whose mask is the negotiated mask of the request and whose minimum bit count is the requested one, 0 when absent; the minimum-difficulty answer is always `Some(false)`; the session state is unchanged |
| `Messages.SupportedBits` | src/lib/sv1/handler.rs:38-40 | bit i of the result is set exactly when bit i of the requested mask is set and 13 <= i <= 28 (the BIP 320 general-purpose bits) |
| `Messages.NegotiatedMask` | src/lib/sv1/handler.rs:38-45 | the granted mask is a bitwise subset of `0x1FFFE000`; it is 0 when no mask was requested; otherwise it has exactly the requested bits among bits 13 to 28 |
| `Messages.NegotiatedMaskExamples` | src/lib/sv1/handler.rs:38-40 | requesting `0xFFFFFFFF` grants `0x1FFFE000`; requesting 0 grants 0 |
| `Messages.NegotiatedMaskIdempotent` | src/lib/sv1/handler.rs:38-47 | requesting a granted mask again grants the same mask, so masking the parameters a second time while building them would change nothing |
| `Handler.Sv1Handler.HandleSubscribe` | src/lib/sv1/handler.rs:53-69 | exactly two subscriptions, `mining.set_difficulty` first and `mining.notify` second, both with the same fixed identifier; the request is ignored and the state unchanged |
| `Handler.Sv1Handler.HandleAuthorize` | src/lib/sv1/handler.rs:71-73 | grants the request exactly when the session is not yet authorized, whatever the worker name; the state is unchanged |
| `Handler.Sv1Handler.HandleSubmit` | src/lib/sv1/handler.rs:75-79 | every share is accepted and the state is unchanged |
| `Handler.Sv1Handler.IsAuthorized` | src/lib/sv1/handler.rs:85-87 | reports the authorization flag, whatever name is asked about |
| `Handler.Sv1Handler.Authorize` | src/lib/sv1/handler.rs:89-91 | the session becomes authorized, for any name; the template is untouched |
| `Handler.Sv1Handler.SetExtranonce1` | src/lib/sv1/handler.rs:94-99 | whatever is requested, returns 24 bytes, all zero except bytes 15 and 23, which are 1; the state is unchanged |
| `Handler.Sv1Handler.SetExtranonce2Size` | src/lib/sv1/handler.rs:106-108 | whatever size is requested, including none, returns 8 |
| `Handler.Sv1Handler.SetVersionRollingMask` | src/lib/sv1/handler.rs:118-120 | changes nothing |
| `Handler.Sv1Handler.SetVersionRollingMinBit` | src/lib/sv1/handler.rs:122-124 | changes nothing |
| `Session.Apply` | src/lib/sv1/handler.rs:27-124 | no callback clears the authorization flag; only `authorize` sets it; every callback other than `authorize` and `update_template` leaves the state as it was |
| `Session.AuthorizedAfterRun` | src/lib/sv1/handler.rs:85-91 | after any sequence of callbacks the session is authorized exactly when it was before or one of them was `authorize` |
| `Session.AuthorizationMonotonic` | src/lib/sv1/handler.rs:89-91 | once authorized, a session stays authorized whatever callbacks follow |
| `Session.GateOpenUntilAuthorize` | src/lib/sv1/handler.rs:21-24 | a new handler stays unauthorized, so the authorization gate keeps granting, exactly as long as no `authorize` has been called |
| `Session.NonMutatingCallsPreserveState` | src/lib/sv1/handler.rs:33-124 | a sequence of callbacks none of which is `authorize` or `update_template` leaves the session exactly as it was |
| `Session.TemplateAfterRun` | src/lib/sv1/handler.rs:27-29 | the template a session holds is the one given by its last template update, or the original one if there was none |
| `Session.TemplateUpdatesKeepAuthorization` | src/lib/sv1/handler.rs:27-29 | removing the template updates from a sequence of callbacks does not change the authorization flag it ends with |

## Left out

- `handle_extranonce_subscribe`, `extranonce1`, `extranonce2_size`, `version_rolling_mask` and `notify`: their bodies are `todo!()`, which aborts the session, so there is no behaviour to model. They are absent from `Call`.
- `Template`, `Template::new` and `Template::update` (module `super::bitcoin`) are not part of this model. The template is a type parameter. `New` receives the outcome of building it. `UpdateTemplate` receives the update as a function parameter.
- Handler.Sv1Handler.HandleConfigure: the validity check of `VersionRollingParams::new` belongs to the Stratum V1 library and is not modelled. The parameter `paramsValid` stands for it. Because the code aborts when it fails, the method requires it rather than returning an error. The model also takes it that `VersionRollingParams::new` keeps the mask and the minimum bit count it is given; should it mask again with the supported bits, `NegotiatedMaskIdempotent` shows the mask would not change.
- Logging (`tracing::info!`) is I/O and is left out.
- Hex decoding of the extranonce literal by the Stratum V1 library is left out. The model uses the 24 bytes the literal denotes.
- Requests are reduced to the fields the callbacks could read. `ConfigureRequest` holds what the accessors `version_rolling_mask()` and `version_rolling_min_bit_count()` return, not the list of extensions.
- The `usize` extranonce2 size is modelled as `nat`. The constant 8 is far from the bound.
- `#[derive(Clone)]` is left out; the model never copies a handler.
- Some callbacks take `&mut self` in the trait but never write a field. They are modelled without `modifies`.
