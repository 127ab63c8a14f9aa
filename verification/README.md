# Rock-paper-scissors rules and the product catalogue, in Dafny

This project models the two pieces of real logic in a set of JavaScript
teaching projects and proves properties of them.

- **The rock-paper-scissors game** (module `RockPaperScissors`). `playGame`
  turns the player's move and the computer's move into a result string:
  `'You win.'`, `'You lose.'`, `'Tie.'`, or `''` when the player's move is not
  one of `rock`, `paper` and `scissors`. It then adds one to the counter
  that the result names. The model also covers `resetGame`, the all-zero score
  the page falls back to when nothing is saved, and the `autoPlay` on/off
  toggle. The outcome table is checked against an independent rule, `Beats`
  (scissors beat paper, paper beats rock, rock beats scissors).
- **The product catalogue** (module `Products`). A payload record becomes a
  `Clothing` record when its `type` is `'clothing'` and a plain `Product`
  otherwise. The loaders map the payload to a catalogue. The model also covers
  `getProduct`, the lookup by id; because its `forEach` overwrites, it
  returns the last match. `getStartUrl` builds the rating-image path, and
  `extraInfoHTML` adds a size-chart anchor for clothing.

Two small helper modules support these:
- `Wrappers` holds `Option`, which stands for `undefined`.
- `Decimal` gives how a template literal prints a whole number below 10^21,
  and how to read that number back.

The files are `wrappers.dfy`, `decimal.dfy`, `rock_paper_scissors.dfy` and
`products.dfy`.

Modelling choices:
- The player's move is the raw string `playGame` receives.
- The computer's move is an input of type `Move`. The source picks it with
  `Math.random()`, which lies in [0, 1), so it is always one of the three moves.
- The result stays a string, and the score update looks at that string, as
  the source does.
- `rating.stars` is held as a whole number of tenths (`starsTenths`). So
  `stars * 10` is exactly that number.
- A missing `sizeChartLink` is `None`. A template literal prints it as
  `undefined`, and so does the model.
- The payload field `type` is called `typeTag`, because `type` is a Dafny
  keyword. A missing `type` is `None`.
- The process-wide `products` array, which `getProduct` reads, is a parameter.

## Model

| member | source | states |
|---|---|---|
| RockPaperScissors.MoveName | 13-AdvancedFunctions/13-rock-paper-scissors/rock-paper-scissors.js:53-63 | the name each button passes to playGame is recognised as exactly that move |
| RockPaperScissors.ParseMove | 13-AdvancedFunctions/13-rock-paper-scissors/rock-paper-scissors.js:6-24 | a player move is recognised exactly when it is 'rock', 'paper' or 'scissors' |
| RockPaperScissors.Outcome | 13-AdvancedFunctions/13-rock-paper-scissors/rock-paper-scissors.js:5-33 | the result is '' exactly for an unrecognised player move; otherwise 'You win.' iff the player's move beats the computer's, 'You lose.' iff the computer's beats the player's, 'Tie.' iff they are equal |
| RockPaperScissors.TieOnEqualMoves | 13-AdvancedFunctions/13-rock-paper-scissors/rock-paper-scissors.js:11-26 | equal moves always give 'Tie.' |
| RockPaperScissors.ExactlyOneResult | 13-AdvancedFunctions/13-rock-paper-scissors/rock-paper-scissors.js:6-33 | each of the nine pairs of moves gets exactly one of the three results |
| RockPaperScissors.Antisymmetry | 13-AdvancedFunctions/13-rock-paper-scissors/rock-paper-scissors.js:6-33 | (a, b) wins iff (b, a) loses, and (a, b) ties iff (b, a) ties |
| RockPaperScissors.Tally | 13-AdvancedFunctions/13-rock-paper-scissors/rock-paper-scissors.js:35-41 | the counter the result string names grows by one and no counter shrinks; the total grows by one for the three results and stays the same for any other string |
| RockPaperScissors.PlayGame | 13-AdvancedFunctions/13-rock-paper-scissors/rock-paper-scissors.js:3-41 | an unrecognised move shows '' and leaves the score as it was; a recognised move shows 'You win.', 'You lose.' or 'Tie.' according to the rule of the game, no counter shrinks, the total grows by exactly one, and the counter that grows is the one that result names |
| RockPaperScissors.OnlyOneCounterChanges | 13-AdvancedFunctions/13-rock-paper-scissors/rock-paper-scissors.js:35-41 | after a game with a recognised move, exactly one of wins/losses/ties grows by 1 and the other two are unchanged |
| RockPaperScissors.InitialScore | 13-AdvancedFunctions/13-rock-paper-scissors/rock-paper-scissors.js:2 | the saved score is used when there is one; otherwise the score starts with all counters at zero |
| RockPaperScissors.ResetGame | 13-AdvancedFunctions/13-rock-paper-scissors/rock-paper-scissors.js:129-132 | after a reset every counter is zero |
| RockPaperScissors.ResetIsInitialDefault | 13-AdvancedFunctions/13-rock-paper-scissors/rock-paper-scissors.js:129-132 | the reset score equals the default score used when nothing is saved |
| RockPaperScissors.AutoPlay | 13-AdvancedFunctions/13-rock-paper-scissors/rock-paper-scissors.js:146-160 | the auto-play flag is always flipped |
| RockPaperScissors.AutoPlayTwiceRestores | 13-AdvancedFunctions/13-rock-paper-scissors/rock-paper-scissors.js:146-160 | toggling auto play twice restores the original mode |
| RockPaperScissors.AutoPlayTicks | 13-AdvancedFunctions/13-rock-paper-scissors/rock-paper-scissors.js:150-153 | a run of automatic games never lowers a counter, and any non-empty run changes the score |
| RockPaperScissors.AutoPlayTicksTotal | 13-AdvancedFunctions/13-rock-paper-scissors/rock-paper-scissors.js:150-153 | each automatic game plays a recognised move, so n ticks add exactly n games to the total |
| Products.FromDetails | 21-AsyncAwait/javascript-amazon-project-main/data/products.js:12-67 | the constructor the loaders choose (lines 62-67, and again 86-91): the record is Clothing iff the type tag is 'clothing'; id, image, name, rating and priceCents are copied unchanged; Clothing also copies sizeChartLink |
| Products.FromDetailsDeterminedByCopiedFields | 21-AsyncAwait/javascript-amazon-project-main/data/products.js:19-25 | two payloads that agree on the copied fields and on being clothing (and on the link, for clothing) build identical records, so other payload fields never show up in a plain Product |
| Products.DetailsRoundTrip | 21-AsyncAwait/javascript-amazon-project-main/data/products.js:42-45 | every Product and every Clothing record is exactly what its own payload builds |
| Products.ToCatalog | 21-AsyncAwait/javascript-amazon-project-main/data/products.js:62-67 | the catalogue keeps the payload's length and order, and element i is the record built from payload element i |
| Products.CatalogOfConcatenation | 21-AsyncAwait/javascript-amazon-project-main/data/products.js:86-91 | mapping is element-wise and keeps order: the catalogue of a concatenated payload is the concatenation of the catalogues |
| Products.LastIndexOf | 21-AsyncAwait/javascript-amazon-project-main/data/products.js:2-9 | reference lookup: returns the last position holding the id, or None exactly when no product has that id |
| Products.GetProduct | 21-AsyncAwait/javascript-amazon-project-main/data/products.js:2-9 | returns None exactly when no product has the queried id; otherwise returns the product at the last matching position, as LastIndexOf finds it, so with duplicate ids the last one wins |
| Products.AppendOverwrites | 21-AsyncAwait/javascript-amazon-project-main/data/products.js:4-8 | a later product with the same id hides every earlier one |
| Products.StartUrl | 21-AsyncAwait/javascript-amazon-project-main/data/products.js:27-29 | the path is 'images/ratings/rating-' then a digit string with no leading zero then '.png', and that digit string reads back as ten times the stars, so the path is fixed exactly |
| Products.StartUrlInjective | 21-AsyncAwait/javascript-amazon-project-main/data/products.js:27-29 | two records share a rating image exactly when they have the same stars |
| Decimal.Render | 21-AsyncAwait/javascript-amazon-project-main/data/products.js:28 | the interpolated number prints as a non-empty digit string with no leading zero, one digit long exactly for numbers below 10 |
| Decimal.ParseRender | 21-AsyncAwait/javascript-amazon-project-main/data/products.js:28 | the digits that interpolation prints for a whole number read back as that number |
| Products.ExtraInfoHtml | 21-AsyncAwait/javascript-amazon-project-main/data/products.js:35-53 | the extra HTML is empty exactly for a plain Product; for Clothing it holds the size chart link (or 'undefined') right after the opening of the href attribute |
| Products.ExtraInfoHrefRoundTrip | 21-AsyncAwait/javascript-amazon-project-main/data/products.js:47-53 | exactly the clothing records yield an anchor, and reading its href back gives the record's link whenever the link has no double quote |
| Products.ClothingCardLinksSizeChart | 21-AsyncAwait/javascript-amazon-project-main/data/products.js:19-53 | a payload record with id '1', type 'clothing', 4 stars and link '/x' becomes Clothing, gets rating image 'rating-40.png', and its extra HTML links '/x' |

## Left out

- The page's DOM work is not modelled: `updateScoreElement`, the result and move display, `showResetConfirmation`/`hideResetConfirmation`, the button labels of `autoPlay`, and the click and key bindings. It is display code.
- Saving the score to `localStorage` and the JSON (de)serialisation are not modelled, because they are browser I/O. The saved slot is a parameter of `InitialScore`.
- `pickComputerMove` is not modelled, because it is randomness over floating-point thresholds. The computer's move, and the move an automatic tick plays, are inputs.
- The `setInterval`/`clearInterval` timer of `autoPlay` is not modelled, because it is timing. Only the flag is modelled, plus a run of automatic games as a sequence of ticks.
- RockPaperScissors.InitialScore: a saved value that is not a full score record (for example `{}` or a bare number) is outside the model's `Score` type, because the game only ever saves full score records.
- RockPaperScissors.Tally: the counters are unbounded naturals. JavaScript numbers lose precision above 2^53, which no real game reaches.
- Decimal.Render: JavaScript prints whole numbers of 10^21 and above in exponent form (`1e+21`) and holds integers above 2^53 only approximately; the model prints every natural number in plain digits. Ratings times ten are far below either bound.
- Products.StartUrl: `stars * 10` is floating-point in the source. The model takes the whole number of tenths, which matches the source for ratings with at most one decimal place.
- `getPrice` is not modelled, because it delegates to `formatCurrency`, and `scripts/utils/money.js` is not part of this model.
- The loaders are not modelled: `loadProducts` (XHR), `loadProductsFetch` (fetch with `catch`), and the `Promise.all` and `async`/`await` sequencing in `scripts/checkout.js` and `data/backend-practice.js`. They are network and concurrency plumbing. Only the type-tag mapping they apply is modelled, as `ToCatalog`. Note that the `loadPage` function in `21-AsyncAwait/.../scripts/checkout.js` has no `try`/`catch` around its awaits, so no recovery step exists there to model.
- Payload fields other than `type` and `sizeChartLink` are assumed present. `rating` is reduced to its stars, because nothing in the core reads its other fields.
- `extraInfoHTML` puts the link into the attribute without escaping it. The model states the round trip only for links without a double quote and does not model HTML parsing.
- The language-basics snippets under `01_basics` are not modelled. They demonstrate JavaScript built-ins only.
