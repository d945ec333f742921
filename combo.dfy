/**
 * The combo pipeline: resolve the user, fetch the eligible shirts (while the
 * eligible shorts are fetched by a spawned task), pick a shirt, fetch its
 * preference rows, join the shorts task, weight the shorts, draw one and
 * render the pair. Each step can end the request; the first failure wins.
 *
 * The database, the spawned task, the renderer and the random source are
 * inputs: the store is a set of query functions, the join and the render
 * either succeed or fail with a given error, and the two random draws are
 * indices that must be ones the random source could produce.
 */
module Combo {
  import opened Closet
  import opened Weights
  import opened Sampling
  import opened Responses

  /** The user and the cooldown window, in days. */
  datatype Identity = Identity(user: UserId, days: I32)

  /** The three queries, as functions of their bound parameters. */
  datatype Store = Store(
    shirts: (UserId, I32) -> Result<seq<ClotheColor>, SqlxError>,
    shorts: (UserId, I32) -> Result<seq<ClotheColor>, SqlxError>,
    combos: (UserId, I32) -> Result<seq<WeightedShort>, SqlxError>)

  /**
   * Everything outside the pipeline: the resolved identity, if any, the
   * store, whether joining the shorts task fails and whether rendering fails.
   */
  datatype Env = Env(
    identity: Option<Identity>,
    store: Store,
    joinFailure: Option<JoinError>,
    renderFailure: Option<RenderError>)

  /** The two random draws: an index into the shirts and an index into the shorts. */
  datatype Draws = Draws(shirt: nat, short: nat)

  /** The steps of the pipeline, in the order they run. */
  datatype Stage =
    | ResolveUser | SpawnShorts | AwaitShirts | PickShirt | AwaitCombos
    | JoinShorts | BuildDistribution | SampleShort | RenderCombo

  const Stages: seq<Stage> :=
    [ResolveUser, SpawnShorts, AwaitShirts, PickShirt, AwaitCombos,
     JoinShorts, BuildDistribution, SampleShort, RenderCombo]

  /** How a request ends: a combo, a handler error, or a panic of the weights' `unwrap`. */
  datatype Outcome = Served(combo: ComboView) | Failed(error: Error) | Panicked(cause: WeightedError)

  /** The outcome together with the steps that ran, in order. */
  datatype Run = Run(outcome: Outcome, trace: seq<Stage>)

  /** The position of a step in the pipeline. */
  function StageIndex(s: Stage): (k: nat)
    ensures k < |Stages| && Stages[k] == s
  {
    match s
    case ResolveUser => 0
    case SpawnShorts => 1
    case AwaitShirts => 2
    case PickShirt => 3
    case AwaitCombos => 4
    case JoinShorts => 5
    case BuildDistribution => 6
    case SampleShort => 7
    case RenderCombo => 8
  }

  /** Ends the request with `o` after step `last`: the trace is every step up to and including it. */
  function Stop(o: Outcome, last: Stage): Run {
    Run(o, Stages[..StageIndex(last) + 1])
  }

  /** The random pick of a shirt: nothing from an empty list, else the drawn element. */
  function Shirt(shirts: seq<ClotheColor>, draw: nat): (r: Option<ClotheColor>)
    requires shirts != [] ==> draw < |shirts|
    ensures r.None? <==> shirts == []
    ensures r.Some? ==> r.value in shirts
  {
    if shirts == [] then None else Some(shirts[draw])
  }

  /** Awaiting the shorts task: a failed join first, then a failed query. */
  function JoinedShorts(env: Env, id: Identity): (r: Result<seq<ClotheColor>, Error>)
    ensures r.Ok? <==> env.joinFailure.None? && env.store.shorts(id.user, id.days).Ok?
    ensures r.Ok? ==> r.value == env.store.shorts(id.user, id.days).value
    ensures r.Err? ==> r.error.Join? || r.error.Sqlx?
    ensures r.Err? && r.error.Join? <==> env.joinFailure.Some?
    ensures env.joinFailure.Some? ==> r == Err(Join(env.joinFailure.value))
    ensures env.joinFailure.None? && env.store.shorts(id.user, id.days).Err?
        ==> r == Err(Sqlx(env.store.shorts(id.user, id.days).error))
  {
    match env.joinFailure
    case Some(je) => Err(Join(je))
    case None =>
      match env.store.shorts(id.user, id.days)
      case Err(se) => Err(Sqlx(se))
      case Ok(shorts) => Ok(shorts)
  }

  /**
   * The draws are ones the random source could produce: the shirt draw
   * indexes the non-empty shirt list, and the shorts draw is in the support
   * of the distribution built for the picked shirt.
   */
  predicate DrawsFit(env: Env, d: Draws) {
    match env.identity
    case None => true
    case Some(id) =>
      match env.store.shirts(id.user, id.days)
      case Err(_) => true
      case Ok(shirts) =>
        shirts != [] ==>
          && d.shirt < |shirts|
          && match env.store.combos(id.user, shirts[d.shirt].color)
             case Err(_) => true
             case Ok(rows) =>
               match JoinedShorts(env, id)
               case Err(_) => true
               case Ok(shorts) =>
                 match NewWeightedIndex(WeightVector(rows, shorts))
                 case Err(_) => true
                 case Ok(dist) => InSupport(dist, d.short)
  }

  /** The combo handler. */
  function Combo(env: Env, d: Draws): (r: Run)
    requires DrawsFit(env, d)
    ensures |r.trace| <= |Stages| && r.trace == Stages[..|r.trace|]
    ensures r.outcome == Failed(UserIdAndDays) <==> env.identity.None?
    ensures r.outcome.Served? <==> r.trace == Stages && env.renderFailure.None?
    ensures r.outcome.Failed? ==> !r.outcome.error.Uuid?
    ensures r.outcome.Failed? && r.outcome.error.EmptyClothes? ==> r.outcome.error.what == "shirts"
  {
    match env.identity
    case None => Stop(Failed(UserIdAndDays), ResolveUser)
    case Some(id) =>
      match env.store.shirts(id.user, id.days)
      case Err(se) => Stop(Failed(Sqlx(se)), AwaitShirts)
      case Ok(shirts) =>
        match Shirt(shirts, d.shirt)
        case None => Stop(Failed(EmptyClothes("shirts")), PickShirt)
        case Some(shirt) =>
          match env.store.combos(id.user, shirt.color)
          case Err(se) => Stop(Failed(Sqlx(se)), AwaitCombos)
          case Ok(rows) =>
            match JoinedShorts(env, id)
            case Err(e) => Stop(Failed(e), JoinShorts)
            case Ok(shorts) =>
              match NewWeightedIndex(WeightVector(rows, shorts))
              case Err(we) => Stop(Panicked(we), BuildDistribution)
              case Ok(dist) =>
                var short := shorts[d.short];
                match env.renderFailure
                case Some(re) => Stop(Failed(Render(re)), RenderCombo)
                case None => Stop(Served(ComboView(shirt.color, short.color)), RenderCombo)
  }

  /** The response the handler sends, or nothing when it panics. */
  function Respond(o: Outcome): (r: Option<Response>)
    ensures r.None? <==> o.Panicked?
    ensures o.Served? ==> r == Some(Page(Ok200, o.combo))
    ensures o.Failed? ==> r == Some(IntoResponse(o.error))
  {
    match o
    case Served(c) => Some(Page(Ok200, c))
    case Failed(e) => Some(IntoResponse(e))
    case Panicked(_) => None
  }

  /** The rating handler: the rating is only logged, and a fresh combo is served. */
  function RateCombo(env: Env, d: Draws, rated: RatedCombo): (r: Run)
    requires DrawsFit(env, d)
    ensures r == Combo(env, d)
  {
    Combo(env, d)
  }

  // ----- Properties of the pipeline -----

  /**
   * Every environment admits draws the random source could produce, so the
   * handler is defined for every state of the store, the task and the renderer.
   */
  lemma DrawsExist(env: Env)
    ensures exists d :: DrawsFit(env, d)
  {
    match env.identity
    case None =>
      assert DrawsFit(env, Draws(0, 0));
    case Some(id) =>
      match env.store.shirts(id.user, id.days)
      case Err(_) =>
        assert DrawsFit(env, Draws(0, 0));
      case Ok(shirts) =>
        if shirts == [] {
          assert DrawsFit(env, Draws(0, 0));
        } else {
          match env.store.combos(id.user, shirts[0].color)
          case Err(_) =>
            assert DrawsFit(env, Draws(0, 0));
          case Ok(rows) =>
            match JoinedShorts(env, id)
            case Err(_) =>
              assert DrawsFit(env, Draws(0, 0));
            case Ok(shorts) =>
              var ws := WeightVector(rows, shorts);
              if NewWeightedIndex(ws).Ok? {
                SupportNonEmpty(ws);
                var i: nat :| InSupport(NewWeightedIndex(ws).value, i);
                assert DrawsFit(env, Draws(0, i));
              } else {
                assert DrawsFit(env, Draws(0, 0));
              }
        }
  }

  /**
   * A served combo pairs the picked eligible shirt with a drawn eligible pair
   * of shorts whose effective weight for that shirt is positive.
   */
  lemma ServedComboIsEligible(env: Env, d: Draws)
    requires DrawsFit(env, d) && Combo(env, d).outcome.Served?
    ensures env.identity.Some?
    ensures
      var id := env.identity.value;
      var c := Combo(env, d).outcome.combo;
      && env.store.shirts(id.user, id.days).Ok?
      && var shirts := env.store.shirts(id.user, id.days).value;
      && d.shirt < |shirts|
      && c.shirtColor == shirts[d.shirt].color
      && ClotheColor(c.shirtColor) in shirts
      && env.store.combos(id.user, c.shirtColor).Ok?
      && JoinedShorts(env, id).Ok?
      && var shorts := JoinedShorts(env, id).value;
      && var rows := env.store.combos(id.user, c.shirtColor).value;
      && d.short < |shorts|
      && c.shortColor == shorts[d.short].color
      && ClotheColor(c.shortColor) in shorts
      && ApplyWeight(rows, c.shortColor).weight > 0.0
  {
  }

  /**
   * Once a user is resolved, the first step that fails decides the outcome and
   * carries its own error: the shirt query's error, else (with a shirt picked)
   * the preference query's error before the shorts task is joined, else the
   * join's error, else the distribution's panic cause, else the render error;
   * when nothing fails the drawn pair is served.
   */
  lemma FirstFailureDecides(env: Env, d: Draws)
    requires DrawsFit(env, d) && env.identity.Some?
    ensures
      var id := env.identity.value;
      var shirtsQ := env.store.shirts(id.user, id.days);
      && (shirtsQ.Err? ==> Combo(env, d) == Stop(Failed(Sqlx(shirtsQ.error)), AwaitShirts))
      && (shirtsQ.Ok? && shirtsQ.value != [] ==>
            var shirt := shirtsQ.value[d.shirt];
            var rowsQ := env.store.combos(id.user, shirt.color);
            var shortsQ := JoinedShorts(env, id);
            && (rowsQ.Err? ==> Combo(env, d) == Stop(Failed(Sqlx(rowsQ.error)), AwaitCombos))
            && (rowsQ.Ok? && shortsQ.Err? ==> Combo(env, d) == Stop(Failed(shortsQ.error), JoinShorts))
            && (rowsQ.Ok? && shortsQ.Ok? ==>
                  var built := NewWeightedIndex(WeightVector(rowsQ.value, shortsQ.value));
                  && (built.Err? ==> Combo(env, d) == Stop(Panicked(built.error), BuildDistribution))
                  && (built.Ok? && env.renderFailure.Some? ==>
                        Combo(env, d) == Stop(Failed(Render(env.renderFailure.value)), RenderCombo))
                  && (built.Ok? && env.renderFailure.None? ==>
                        d.short < |shortsQ.value| &&
                        Combo(env, d) == Stop(Served(ComboView(shirt.color, shortsQ.value[d.short].color)), RenderCombo))))
  {
  }

  /**
   * With no eligible shirt the request fails with the empty-shirts error right
   * after the pick: the preference rows are never read and the shorts task
   * is never joined.
   */
  lemma NoShirtsFailsBeforeCombosAndJoin(env: Env, d: Draws)
    requires env.identity.Some?
    requires env.store.shirts(env.identity.value.user, env.identity.value.days) == Ok([])
    ensures DrawsFit(env, d)
    ensures Combo(env, d).outcome == Failed(EmptyClothes("shirts"))
    ensures Combo(env, d).trace == [ResolveUser, SpawnShorts, AwaitShirts, PickShirt]
    ensures AwaitCombos !in Combo(env, d).trace && JoinShorts !in Combo(env, d).trace
  {
  }

  /**
   * With no eligible shirt the result does not depend on the preference rows,
   * the shorts task, the renderer or the draws.
   */
  lemma NoShirtsIgnoresLaterInputs(a: Env, b: Env, da: Draws, db: Draws)
    requires a.identity.Some? && a.identity == b.identity
    requires a.store.shirts(a.identity.value.user, a.identity.value.days) == Ok([])
    requires b.store.shirts(b.identity.value.user, b.identity.value.days) == Ok([])
    ensures DrawsFit(a, da) && DrawsFit(b, db)
    ensures Combo(a, da) == Combo(b, db)
  {
  }

  /** Each error names the step that raised it: the last step in the trace. */
  lemma ErrorMatchesLastStage(env: Env, d: Draws)
    requires DrawsFit(env, d) && !Combo(env, d).outcome.Served?
    ensures Combo(env, d).trace != []
    ensures
      var r := Combo(env, d);
      var last := r.trace[|r.trace| - 1];
      && (r.outcome == Failed(UserIdAndDays) <==> last == ResolveUser)
      && (r.outcome == Failed(EmptyClothes("shirts")) <==> last == PickShirt)
      && (r.outcome.Panicked? <==> last == BuildDistribution)
      && (r.outcome.Failed? && r.outcome.error.Render? <==> last == RenderCombo)
      && (r.outcome.Failed? && r.outcome.error.Join? ==> last == JoinShorts)
      && (r.outcome.Failed? && r.outcome.error.Sqlx? ==> last in {AwaitShirts, AwaitCombos, JoinShorts})
  {
  }

  /**
   * An empty list of eligible shorts is not reported as an empty closet: the
   * weights' `unwrap` panics with no item to draw.
   */
  lemma NoShortsPanics(env: Env, d: Draws)
    requires env.identity.Some?
    requires
      var id := env.identity.value;
      && env.store.shirts(id.user, id.days).Ok?
      && d.shirt < |env.store.shirts(id.user, id.days).value|
      && env.store.combos(id.user, env.store.shirts(id.user, id.days).value[d.shirt].color).Ok?
      && JoinedShorts(env, id) == Ok([])
    ensures DrawsFit(env, d)
    ensures Combo(env, d).outcome == Panicked(NoItem)
  {
  }

  /**
   * When every eligible short has effective weight zero for the picked shirt,
   * the request panics as well.
   */
  lemma ZeroWeightsPanic(env: Env, d: Draws)
    requires env.identity.Some?
    requires
      var id := env.identity.value;
      && env.store.shirts(id.user, id.days).Ok?
      && d.shirt < |env.store.shirts(id.user, id.days).value|
      && var shirt := env.store.shirts(id.user, id.days).value[d.shirt];
      && env.store.combos(id.user, shirt.color).Ok?
      && JoinedShorts(env, id).Ok?
      && var shorts := JoinedShorts(env, id).value;
      && shorts != []
      && forall i :: 0 <= i < |shorts| ==>
           ApplyWeight(env.store.combos(id.user, shirt.color).value, shorts[i].color).weight == 0.0
    ensures DrawsFit(env, d)
    ensures Combo(env, d).outcome == Panicked(AllWeightsZero)
  {
  }

  /**
   * When the shirt has no preference row for any eligible short, every short
   * weighs 1, so the weights' `unwrap` panics only for an empty shorts list.
   */
  lemma NoPreferencesNeverDegenerate(rows: seq<WeightedShort>, shorts: seq<ClotheColor>)
    requires forall i :: 0 <= i < |shorts| ==> NoRowFor(rows, shorts[i].color)
    ensures NewWeightedIndex(WeightVector(rows, shorts)).Ok? <==> shorts != []
    ensures shorts == [] ==> NewWeightedIndex(WeightVector(rows, shorts)) == Err(NoItem)
  {
    var ws := WeightVector(rows, shorts);
    if shorts != [] {
      assert ws[0] == DefaultWeight;
      assert SomePositive(ws);
    }
  }

  /** The end-to-end response: the login redirect exactly when no user is resolved. */
  lemma LoginRedirectIffNoUser(env: Env, d: Draws)
    requires DrawsFit(env, d)
    ensures Respond(Combo(env, d).outcome) == Some(Redirect(PermanentRedirect308, "/login"))
        <==> env.identity.None?
  {
  }

  /**
   * The end-to-end response: the closet redirect exactly when a user is
   * resolved and the shirt query returns no eligible shirt.
   */
  lemma ClosetRedirectIffNoShirts(env: Env, d: Draws)
    requires DrawsFit(env, d)
    ensures Respond(Combo(env, d).outcome) == Some(Redirect(PermanentRedirect308, "/closet"))
        <==> env.identity.Some? && env.store.shirts(env.identity.value.user, env.identity.value.days) == Ok([])
  {
  }

  /** The rating handler's result is the same whatever rating was submitted. */
  lemma RatingHasNoEffect(env: Env, d: Draws, a: RatedCombo, b: RatedCombo)
    requires DrawsFit(env, d)
    ensures RateCombo(env, d, a) == RateCombo(env, d, b)
  {
  }

  /**
   * With exactly one eligible pair of shorts, a served combo uses it, whatever
   * the shorts draw was.
   */
  lemma SingleShortIsServed(env: Env, d: Draws, only: ClotheColor)
    requires DrawsFit(env, d) && Combo(env, d).outcome.Served?
    requires JoinedShorts(env, env.identity.value) == Ok([only])
    ensures Combo(env, d).outcome.combo.shortColor == only.color
  {
  }

  /** A store with two eligible shirts, colours 1 and 2, two eligible shorts, colours 5 and 6,
      and one preference row, weight 3 for shorts 5 with shirt 1. */
  function ScenarioEnv(): Env {
    Env(
      Some(Identity(0, 5)),
      Store(
        (u: UserId, days: I32) => Ok([ClotheColor(1), ClotheColor(2)]),
        (u: UserId, days: I32) => Ok([ClotheColor(5), ClotheColor(6)]),
        (u: UserId, c: I32) => if c == 1 then Ok([WeightedShort(5, 3.0)]) else Ok([])),
      None,
      None)
  }

  /**
   * In that store, once shirt 1 is picked, shorts 5 is drawn with probability
   * 3/4 and shorts 6, which has no row and so the default weight, with 1/4;
   * each draw serves the matching pair.
   */
  lemma ScenarioWeightedDraw()
    ensures
      var ws := WeightVector([WeightedShort(5, 3.0)], [ClotheColor(5), ClotheColor(6)]);
      && ws == [3.0, 1.0]
      && NewWeightedIndex(ws).Ok?
      && Probability(NewWeightedIndex(ws).value, 0) == 3.0 / 4.0
      && Probability(NewWeightedIndex(ws).value, 1) == 1.0 / 4.0
    ensures DrawsFit(ScenarioEnv(), Draws(0, 0)) && DrawsFit(ScenarioEnv(), Draws(0, 1))
    ensures Combo(ScenarioEnv(), Draws(0, 0)).outcome == Served(ComboView(1, 5))
    ensures Combo(ScenarioEnv(), Draws(0, 1)).outcome == Served(ComboView(1, 6))
  {
    var rows := [WeightedShort(5, 3.0)];
    assert FirstMatchAt(rows, 5, 0);
    assert NoRowFor(rows, 6);
    var ws := WeightVector(rows, [ClotheColor(5), ClotheColor(6)]);
    assert ws == [3.0, 1.0];
    assert ws[1..] == [1.0] && [1.0][1..] == [];
    assert Sum(ws) == 4.0;
  }
}
