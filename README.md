# Closet combo selection, modelled in Dafny

The closet service recommends an outfit for the day: one shirt and one pair of
shorts, each chosen among the garments the user has not worn within the
cooldown window. The shirt is picked uniformly at random. The shorts are drawn
at random with weights: each shirt may have stored preference rows
`(short_color, weight)`, and a pair of shorts without a row weighs `1.0`. A
rating of a combo (`Good`, `TooSoon`, `Bad`) is accepted but, for now, only
logged: the rating endpoint answers with a fresh combo.

This project models that request pipeline as pure functions and proves what it
promises:

- `closet.dfy` (module `Closet`): the value types (colours as `i32`, user ids
  as 128-bit values, preference rows, the rating and its printed name, the
  handler's error enumeration and its message texts).
- `weights.dfy` (module `Weights`): the first-match lookup of a shorts colour
  in the preference rows, the default weight, and the weight vector built over
  the eligible shorts; a first-wins lookup table is proved to give the same
  weights as the linear search.
- `sampling.dfy` (module `Sampling`): what the pipeline relies on from the
  `rand` crate's weighted index: when building it fails (no item, a negative
  weight, all weights zero) and which indices it can return, with what
  probability.
- `responses.dfy` (module `Responses`): the mapping from handler errors to a
  redirect to `/login`, a redirect to `/closet`, or a 500 response.
- `combo.dfy` (module `Combo`): the `combo` handler as a fail-fast pipeline
  returning the outcome (a combo, an error, or the panic of `unwrap`) and the
  trace of steps that ran, the response the handler sends, and the rating
  handler.

The database queries, the spawned shorts task, the template renderer and the
random number generator are inputs. The store is a record of three query
functions (eligible shirts and eligible shorts by user and days, preference
rows by user and shirt colour). Joining the shorts task and rendering each
either succeed or fail with a given error. The two random draws are indices;
the predicate `DrawsFit` demands that they are indices the random source could
return (a position in the non-empty shirt list, and a position of positive
weight in the shorts distribution).

An empty list of eligible shorts is not reported as an empty closet: the
weighted index constructor fails and its `unwrap` panics (`Outcome.Panicked`).
The same panic happens when every eligible short's effective weight is zero,
and when some eligible short's effective weight is negative. A negative weight
is used only when it belongs to the first row for an eligible short's colour;
the weight of a row for any other colour, or after the first match, never is.

## Model

| member | source | states |
|---|---|---|
| `Closet.RatingName` | src/main.rs:27-31 | each rating prints as its own variant name: Good as "Good", TooSoon as "TooSoon", Bad as "Bad" |
| `Closet.ParseRating` | src/main.rs:20-25 | a rating is read from its variant name, and any other text is rejected |
| `Closet.RatingNameParses` | src/main.rs:20-31 | reading back the printed name of a rating gives that rating |
| `Closet.ParsedRatingPrints` | src/main.rs:20-31 | a text that reads as a rating is exactly the name that rating prints |
| `Closet.RatingNameInjective` | src/main.rs:27-31 | different ratings print differently |
| `Closet.Message` | src/main.rs:58-72 | the error text: the wrapped error's own text for the render, database, join and uuid variants, "failed to get user id and days" for a missing user, and "failed to find any " followed by the missing item for an empty closet |
| `Weights.FindRow` | src/main.rs:190-192 | the search finds nothing exactly when no row has the colour, and otherwise returns the first row that has it |
| `Weights.ApplyWeight` | src/main.rs:188-195 | the weighted short keeps the colour; its weight is that of the first matching row, and exactly 1.0 when no row matches |
| `Weights.WeightVector` | src/main.rs:200-205 | the weight vector has one entry per eligible short, and entry i is the effective weight of the i-th short |
| `Weights.FindRowIgnoresLaterRows` | src/main.rs:190-192 | appending rows after a match does not change which row the search finds |
| `Weights.LaterRowsIgnored` | src/main.rs:188-195 | once a row matches a colour, later duplicate rows for it never change its weight |
| `Weights.UnmatchedColorGetsDefault` | src/main.rs:194 | a colour with no row weighs exactly 1.0 |
| `Weights.PreferenceMap` | src/main.rs:187 | the first-wins lookup table holds a key exactly for the colours some row names |
| `Weights.MapLookupAgrees` | src/main.rs:187-195 | replacing the linear search by the first-wins table gives the same weight for every colour |
| `Weights.NoPreferencesAllDefault` | src/main.rs:194-205 | with no row for any eligible short, every entry of the weight vector is 1.0 |
| `Sampling.NewWeightedIndex` | src/main.rs:200-206 | building the distribution fails with no item exactly for no weights, with an invalid weight exactly when one is negative, with all-zero exactly when none is positive; it succeeds exactly for non-negative weights with one positive, and then keeps the weights and a positive total |
| `Sampling.SumZeroIffNonePositive` | src/main.rs:200-206 | non-negative weights sum to zero exactly when none is positive |
| `Sampling.Probability` | src/main.rs:209 | the chance of drawing an index is its weight over the total, never negative for a valid weight |
| `Sampling.SupportIsPositiveProbability` | src/main.rs:209 | an index can be drawn exactly when its probability is positive |
| `Sampling.SupportNonEmpty` | src/main.rs:200-209 | a distribution that was built has some index to draw |
| `Sampling.SingleCandidateDrawsIt` | src/main.rs:209 | with one candidate, the only index that can be drawn is 0 |
| `Responses.IntoResponse` | src/main.rs:74-84 | a missing user redirects to /login, an empty closet redirects to /closet, and the render, database, join and uuid errors give a 500 whose body is the error text; each in both directions |
| `Responses.EveryErrorHasOneDisposition` | src/main.rs:74-84 | the mapping is total: every error gets one of the three outcomes |
| `Responses.EmptyClothesIgnoresWhat` | src/main.rs:82 | every empty-closet error gets the same redirect, whatever item it names |
| `Combo.Shirt` | src/main.rs:131-134 | the pick is empty exactly when there is no eligible shirt, and is otherwise one of the eligible shirts |
| `Combo.JoinedShorts` | src/main.rs:184 | awaiting the shorts task fails with the task's own join error when the task fails, else with the query's own database error when the query fails, else yields the query's shorts |
| `Combo.Combo` | src/main.rs:159-219 | the steps run in order and stop at the first failure; the user error occurs exactly when no user is resolved; a combo is served exactly when every step ran and rendering succeeded; the uuid error never occurs, and the only empty-closet error is for shirts |
| `Combo.Respond` | src/main.rs:221-223 | a served combo becomes a 200 page, an error becomes its mapped response, and a panic sends nothing |
| `Combo.DrawsExist` | src/main.rs:131-209 | every environment admits draws the random source could produce (a shirt index, and a shorts index of positive weight when the distribution is built), so the handler is defined for every environment |
| `Combo.FirstFailureDecides` | src/main.rs:170-219 | with a user resolved, the first failing step decides the outcome with its own error: shirt query, then (a shirt picked) preference query before the join, then join, then the distribution's panic cause, then rendering; otherwise the drawn pair is served |
| `Combo.ServedComboIsEligible` | src/main.rs:174-216 | a served combo pairs the drawn eligible shirt with a drawn eligible short whose weight for that shirt is positive |
| `Combo.NoShirtsFailsBeforeCombosAndJoin` | src/main.rs:170-184 | with no eligible shirt the request fails with the empty-shirts error after the pick, before the preference rows are read and before the shorts task is joined |
| `Combo.NoShirtsIgnoresLaterInputs` | src/main.rs:170-184 | with no eligible shirt the result does not depend on the preference rows, the shorts task, the renderer or the draws |
| `Combo.ErrorMatchesLastStage` | src/main.rs:159-219 | each failure is raised by the last step that ran: the user error by user resolution, the empty-closet error by the shirt pick, the panic by building the distribution, a render error by rendering, a join error by the join, a database error by one of the three queries |
| `Combo.NoShortsPanics` | src/main.rs:200-206 | an empty list of eligible shorts ends in the no-item panic, not in an empty-closet error |
| `Combo.ZeroWeightsPanic` | src/main.rs:200-206 | eligible shorts that all weigh zero for the picked shirt end in the all-weights-zero panic |
| `Combo.NoPreferencesNeverDegenerate` | src/main.rs:188-206 | with no preference row for any eligible short, building the distribution succeeds exactly when there is a short, and fails with no item otherwise |
| `Combo.LoginRedirectIffNoUser` | src/main.rs:161-163 | the handler redirects to /login exactly when no user is resolved |
| `Combo.ClosetRedirectIffNoShirts` | src/main.rs:170-176 | the handler redirects to /closet exactly when a user is resolved and the shirt query returns no shirt |
| `Combo.RateCombo` | src/main.rs:225-236 | the rating handler serves exactly the plain handler's combo and ignores the rating |
| `Combo.RatingHasNoEffect` | src/main.rs:225-236 | the rating handler's answer is the same for every submitted rating |
| `Combo.SingleShortIsServed` | src/main.rs:200-209 | with one eligible short, a served combo uses it whatever the shorts draw |
| `Combo.ScenarioWeightedDraw` | src/main.rs:188-209 | with a row of weight 3 for one short and none for the other, the weights are 3 and 1, the draw probabilities 3/4 and 1/4, and each draw serves the matching pair |

## Left out

- The SQL text of the three queries (src/main.rs:95-157): each query is an input function from its bound parameters to a list of rows or a database error; the cooldown predicate and row order are the database's.
- The user id and days lookup (src/main.rs:87-93) is a hard-coded stub; the model takes its result as an optional input.
- Concurrency: the shorts query runs in a spawned task; the model records the spawn in the trace and treats the join as an input that either fails or yields the query's result. Timing and abandonment of the task when the request fails early are not modelled.
- Randomness: the shirt pick and the weighted draw are index parameters; the sampling algorithm itself and the uniformity of the shirt pick are not modelled. `Sampling.Probability` states the distribution's meaning; nothing checks that a sequence of draws follows it.
- Weights are `f32` in the source and real numbers here: NaN, infinities, rounding and overflow of the total are not modelled.
- Template rendering is external: a rendered page is the pair of colours, and rendering either succeeds or fails with a given error.
- Logging (`info!`), routing, static files, the 404 handler and server start-up (src/main.rs:238-266) are left out; `load` (src/main.rs:221-223) appears only as the response mapping in `Combo.Respond`.
- The form extraction of a rating request (the `axum_htmx` module) is not part of this model; the rating handler receives the parsed rating.
- Rating-driven weight updates do not exist in the source (a TODO at src/main.rs:234); no update policy is modelled.
