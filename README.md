# juriscontent: content normalisation and feed layout, modelled in Dafny

This project models the core of the juriscontent image API (`App.jsx`). That
core is the part that turns loosely structured marketing content for lawyers
into one of five card templates and lays a feed image out on a canvas. The
model has six modules:

- `Js` (`js.dfy`) covers the JavaScript semantics the code relies on:
  - string properties that may be `undefined` or `null` (`JsString`) and their truthiness, where `x || d` means "absent, `null` or empty gives the default";
  - `${x}` of an `undefined` or `null` value, which prints "undefined" or "null";
  - `slice`/`substring` from index 0;
  - `split(' ')`, which keeps empty pieces, and `join`;
  - an ASCII `toUpperCase`.
- `WordWrap` (`wrap.dfy`) covers `wrapText`, the greedy word wrap used for the theme and the bullet texts; the area label, the lawyer's name, the OAB line and the check marks are drawn unwrapped.
  - `ctx.measureText` is an uninterpreted width function `string -> nat`.
  - The loop is the method `WrapText`, proved equal to a left fold `Run` over the words.
  - The properties are proved about that fold: lines fit unless they are one word, nothing is lost, no empty line, greediness and idempotence.
- `Templates` (`templates.dfy`) covers `processarConteudoPorTemplate` and `criarFallback`.
  - They map a content object, a fallback text and a theme (`tema`) onto the field record of the `voce-sabia`, `bullets`, `estatistica`, `urgente` or `premium` template.
  - Anything else gives the fallback record.
- `Feed` (`feed.dfy`) covers the drawing part of the `/api/gerar-imagem` handler.
  - It includes the palette and size lookups, the header, footer and bullet panels, the bullet rows and the logo badge.
  - The output is the ordered list of draw commands the handler issues, with no pixels.
  - The handler's steps are methods (`RenderFeed`, `DrawHeader`, `DrawFooter`, `DrawBulletPanel`, `DrawBullets`, `DrawMultilineText`), each proved equal to a function that the layout lemmas talk about.
  - `measureText` per font is a parameter `Metrics`.
  - Whether `loadImage` decodes the logo is a parameter `decodes`.
- `Branding` (`branding.dfy`) covers the `iniciais` of the lawyer's name.
- `Trending` (`trending.dfy`) covers the truncation of the trending topics to three.

## Model

| member | source | states |
|---|---|---|
| Js.Take | juriscontent-api/App.jsx:128 | `slice(0, n)`/`substring(0, n)`: the first min(n, \|s\|) elements, in order, and the whole sequence when it is no longer than `n` |
| Js.Split | juriscontent-api/App.jsx:55 | `split(' ')` yields at least one piece and no piece contains the separator |
| Js.JoinSplit | juriscontent-api/App.jsx:55 | joining the pieces of a split with the separator gives back the string |
| Js.Or | juriscontent-api/App.jsx:118 | `x \|\| d` is the value when it is truthy and the default otherwise, so it is empty exactly when the value is falsy and the default is empty |
| Js.OrElse | juriscontent-api/App.jsx:151 | `x \|\| y` is `x` when truthy and `y` otherwise, and is truthy exactly when one of the two is |
| Js.Show | juriscontent-api/App.jsx:126 | `${x}` prints a string as itself, `undefined` as "undefined" and `null` as "null", so it is empty only for the empty string |
| Js.Excerpt | juriscontent-api/App.jsx:172 | `texto?.substring(0, 150) \|\| ''` is the prefix of the text of length min(150, n), and `''` when the text is absent or `null` |
| Js.Upper | juriscontent-api/App.jsx:225 | `toUpperCase` keeps the length and maps each character on its own |
| WordWrap.WrapText | juriscontent-api/App.jsx:54-76 | the loop returns exactly the fold `Wrap` of the words; no line is empty; a line wider than `maxWidth` is one word of the text; there are no more lines than words |
| WordWrap.WrapLinesNonEmpty | juriscontent-api/App.jsx:72-74 | no returned line is empty |
| WordWrap.WrapOverflowIsOneWord | juriscontent-api/App.jsx:59-68 | a line wider than `maxWidth` is a single word of the text |
| WordWrap.WrapMultiWordLinesFit | juriscontent-api/App.jsx:59-68 | every line containing a space fits within `maxWidth` |
| WordWrap.WrapLineCount | juriscontent-api/App.jsx:54-76 | there are at most as many lines as words |
| WordWrap.WrapEmpty | juriscontent-api/App.jsx:54-76 | the empty text gives no line |
| WordWrap.WrapJoin | juriscontent-api/App.jsx:54-76 | for a text without empty tokens, joining the lines with single spaces gives back the text |
| WordWrap.StepJoin | juriscontent-api/App.jsx:58-68 | one loop step with a non-empty word on a non-empty current line extends the joined lines by a space and the word |
| WordWrap.WrapGreedy | juriscontent-api/App.jsx:59-68 | for a text without empty tokens, every break is forced: a line plus the first word of the next line is wider than `maxWidth` |
| WordWrap.WrapIdempotent | juriscontent-api/App.jsx:54-76 | for a text without empty tokens, wrapping any returned line again gives exactly that line |
| Templates.CriarFallback | juriscontent-api/App.jsx:171-183 | the fallback record: question "Você sabia sobre {tema}?" and headline `tema` for a truthy theme, otherwise "Você sabia?" and "Informação Jurídica"; the 150-character excerpt as answer; highlight "CONHEÇA SEUS DIREITOS!"; call to action "Arraste para saber mais"; no bullets and an empty statistic |
| Templates.ProcessarConteudo | juriscontent-api/App.jsx:107-169 | a missing or non-object content or an unknown template gives exactly the fallback record; each template record is produced exactly for an object content and its template id; the call to action is never empty |
| Templates.VoceSabiaTemplate | juriscontent-api/App.jsx:116-122 | each provided field wins, otherwise question falls back to the theme and then "Você sabia?", the answer to the excerpt, the highlight to its fixed text |
| Templates.BulletsTemplate | juriscontent-api/App.jsx:124-131 | an array of bullets gives its first min(4, n) entries in order, anything else none; headline defaults to "Seus direitos: {tema}", call to action to "Salve para não esquecer!" |
| Templates.EstatisticaTemplate | juriscontent-api/App.jsx:133-143 | the statistic defaults `numero` to "70%", `contexto` to the theme and `explicacao` and `fonte` to `''`, but the headline uses the raw `numero` and so starts with a space when it is missing; fixed call to action |
| Templates.EstatisticaExample | juriscontent-api/App.jsx:133-143 | `{numero: "85%", contexto: "consumer claims", fonte: "survey 2024"}` gives the headline "85% consumer claims" and keeps the source |
| Templates.UrgenteTemplate | juriscontent-api/App.jsx:145-154 | the alert is never empty ("ATENÇÃO: {tema}" by default) while the headline mirrors the alert or else the bare theme; `prazo` and `risco` default to `''`, `acao` to "Consulte um advogado"; fixed highlight and call to action |
| Templates.PremiumTemplate | juriscontent-api/App.jsx:156-164 | headline falls back to the bare theme, insight to the excerpt, `conclusao` to `''`; `resposta` mirrors only a provided insight; highlight mirrors the conclusion or the fixed consultancy label |
| Templates.HeadlineMayBeEmpty | juriscontent-api/App.jsx:151-158 | with an empty content object and an empty or absent theme, the `premium` and `urgente` headlines are empty or undefined, while the fallback headline is not |
| Templates.NullTheme | juriscontent-api/App.jsx:124-154 | a `null` theme prints as "null" in the `bullets` headline, the `urgente` alert and the `estatistica` headline, is the `urgente` headline itself, and is falsy like `undefined` elsewhere |
| Templates.PrimaryTextNonEmpty | juriscontent-api/App.jsx:107-183 | every record except `premium` carries a non-empty question, headline or alert |
| Templates.RenormalizeIsStable | juriscontent-api/App.jsx:116-131 | a `voce-sabia` or `bullets` record fed back as content normalises to itself |
| Templates.EstatisticaNotStable | juriscontent-api/App.jsx:133-143 | an `estatistica` record fed back as content changes its headline from " x" to "70% x" |
| Feed.PaletteLookup | juriscontent-api/App.jsx:297-303 | a known style gives exactly its palette from the table; any other style, or none, gives exactly the `classico` palette; the text colour is always white |
| Feed.SizeLookup | juriscontent-api/App.jsx:305-310 | `stories` is 1080 x 1920, `landscape` 1200 x 628, anything else 1080 x 1080 |
| Feed.HeaderBoxHeight | juriscontent-api/App.jsx:325 | the header box is at least 180 high, has room for 80 plus 50 per theme line and equals one of the two |
| Feed.FooterBoxY | juriscontent-api/App.jsx:343-345 | the 140-high footer box ends 30 above the bottom of the canvas |
| Feed.BulletBoxHeight | juriscontent-api/App.jsx:367-368 | the bullet box is at most 70 per bullet plus 60 high, ends at least 70 above the footer box and meets one of the two bounds |
| Feed.LandscapeRowsReachFooter | juriscontent-api/App.jsx:367-389 | the box is clamped but the rows are not: in landscape with one theme line, rows 4 and 5 start below the top of the footer box |
| Feed.BulletText | juriscontent-api/App.jsx:380 | a string bullet is its own text; an object gives `texto`, else `titulo`, else `''`; the text is empty exactly when none of these is set |
| Feed.ChosenBullets | juriscontent-api/App.jsx:364 | `bullets \|\| conteudo?.bullets \|\| []` is the first truthy value: the request's bullets whenever truthy, an empty array or a non-array included; otherwise the content's; otherwise `[]` |
| Feed.BulletsArray | juriscontent-api/App.jsx:364-379 | the entries iterated are those of the chosen array, and none when the chosen value is not an array |
| Feed.NonArrayContentBullets | juriscontent-api/App.jsx:364-379 | content bullets that are a non-array with a positive length (a string such as "abc") make the image fail; one without a length (a number) draws no panel |
| Feed.EmptyRequestBulletsSuppressPanel | juriscontent-api/App.jsx:364-366 | an empty bullet array in the request draws no bullet panel, whatever bullets the content carries |
| Feed.TallHeaderPushesBoxPastFooter | juriscontent-api/App.jsx:367-368 | in landscape with seven theme lines the bullet box starts at 500, below the footer top at 458, with height -112 |
| Feed.DrawMultilineText | juriscontent-api/App.jsx:97-102 | line `i` is drawn at `y + i * lineHeight`, in order |
| Feed.RowsLayout | juriscontent-api/App.jsx:379-389 | row `i` draws the check mark at x = 100 and its line at x = 140, both at `boxY + 50 + 65 i` |
| Feed.RowsAppend | juriscontent-api/App.jsx:379-389 | drawing one more bullet appends its check mark and first line at the next row position |
| Feed.FirstLineIsPrefix | juriscontent-api/App.jsx:388-389 | the line drawn for a bullet without empty tokens is a non-empty prefix of its text: a long bullet is cut, never reflowed |
| Feed.BulletLine | juriscontent-api/App.jsx:388-389 | `bulletLines[0] \|\| ''` through the imperative wrap is the first line of the functional wrap |
| Feed.DrawBullets | juriscontent-api/App.jsx:379-390 | the loop over the first five bullets returns exactly their rows, or fails exactly when one of them is `null` |
| Feed.LogoUri | juriscontent-api/App.jsx:396 | the URI starts with "data:" and ends with the logo; a "data:" logo is kept, anything else gets the PNG base64 prefix |
| Feed.LogoUriIdempotent | juriscontent-api/App.jsx:396 | normalising twice equals normalising once |
| Feed.DrawHeader | juriscontent-api/App.jsx:318-341 | the header draws are exactly `Header` |
| Feed.DrawFooter | juriscontent-api/App.jsx:343-361 | the footer draws are exactly `Footer` |
| Feed.DrawBulletPanel | juriscontent-api/App.jsx:363-391 | the bullet block draws are exactly `BulletPanel` |
| Feed.RenderFeed | juriscontent-api/App.jsx:312-414 | the handler's draws from canvas creation to the logo are exactly `FeedCommands` |
| Feed.BulletPanelFails | juriscontent-api/App.jsx:363-391 | no bullets give no draws; the block fails exactly when the chosen value is a non-array with a positive length or one of the first five bullets is `null` |
| Feed.BulletBlockShape | juriscontent-api/App.jsx:363-391 | the box spans the padded width and ends at least 70 above the footer box, then two draws per line at the row positions |
| Feed.BulletPanelShape | juriscontent-api/App.jsx:363-391 | a successful non-empty block is sized for all bullets and shows the first line of each of the first min(5, n) |
| Feed.FooterIndex | juriscontent-api/App.jsx:318-341 | the footer box comes after the photo, the header box, the optional area label and the optional theme lines |
| Feed.HeaderLength | juriscontent-api/App.jsx:318-341 | the header block has one draw per element it shows |
| Feed.HeaderShape | juriscontent-api/App.jsx:318-341 | the header box is at least 180 high, and theme line `i` is centred at `120 + 50 i` in Georgia |
| Feed.FeedFails | juriscontent-api/App.jsx:363-391 | the feed image fails exactly when the chosen bullets are a non-array with a positive length or one of the first five bullets is `null` |
| Feed.FeedLayout | juriscontent-api/App.jsx:312-361 | the image starts with the photo over the whole canvas and the header block, and the footer box sits at `h - 170` |
| Feed.LogoDrawnLast | juriscontent-api/App.jsx:393-410 | a logo that is set and decodes is drawn last, 70 x 70 at `(w - 110, 40)`, over a disc of radius 40 at 60% opacity |
| Feed.LogoFailureHarmless | juriscontent-api/App.jsx:393-414 | a logo that fails to decode adds no draw: the image is exactly the one assembled without a logo |
| Feed.LayoutIgnoresLogo | juriscontent-api/App.jsx:323-391 | the theme lines and the bullet block are the same whatever the logo |
| Branding.NonEmpty | juriscontent-api/App.jsx:225 | the kept tokens are non-empty and taken from the input, and no token is dropped when none is empty |
| Branding.NonEmptyConcat | juriscontent-api/App.jsx:225 | the non-empty tokens of `a + b` are those of `a` followed by those of `b`: order and repetitions are kept |
| Branding.NonEmptySingle | juriscontent-api/App.jsx:225 | a single token is kept exactly when it is not empty; with `NonEmptyConcat` this fixes the filter on every input |
| Branding.FirstChars | juriscontent-api/App.jsx:225 | for every token list, the result is the first characters of the non-empty tokens, one each, in order: an empty token's `undefined` is dropped by `join` |
| Branding.Initials | juriscontent-api/App.jsx:224-226 | at most two characters, and `''` for an absent or empty name |
| Branding.InitialsOfWords | juriscontent-api/App.jsx:224-226 | for every name, the initials are the upper-cased first letters of the first min(2, n) words, however many spaces separate, precede or follow them |
| Branding.FirstInitial | juriscontent-api/App.jsx:224-226 | a name not starting with a space begins its initials with its own upper-cased first letter |
| Branding.BlankNameHasNoInitials | juriscontent-api/App.jsx:224-226 | a name made only of spaces has no initials |
| Branding.InitialsOfMariaSilvaSantos | juriscontent-api/App.jsx:224-226 | "Maria Silva Santos" gives "MS" |
| Branding.SpacedNameTokens | juriscontent-api/App.jsx:225 | `" Ana  Rui ".split(' ')` has an empty token for the leading, doubled and trailing space |
| Branding.InitialsOfSpacedName | juriscontent-api/App.jsx:224-226 | " Ana  Rui " gives "AR" |
| Branding.InitialsOfAna | juriscontent-api/App.jsx:224-226 | "ana" gives "A" |
| Trending.SaveTrending | juriscontent-api/App.jsx:492-497 | a missing or non-array body is rejected; otherwise the first min(3, n) topics are kept, in order |
| Trending.SaveTrendingIdempotent | juriscontent-api/App.jsx:497 | saving the stored topics again stores the same topics |

## Left out

- HTTP routes and their plumbing are not modelled: Express, CORS, body validation (except the trending-topics shape check), JSON responses and error statuses.
- Cloudinary uploads, the Puppeteer `fetch`, the N8N webhooks and proxy, and the remove.bg request are network I/O to foreign services and are not modelled.
- The trending-topics file store is not modelled. This covers the `fs` reads and writes, the date stamps and the daily refresh comparison, which are file I/O and wall-clock time.
- Canvas rendering is reduced to draw records. The model has no pixels, fonts, shadows (`drawTextWithShadow` is a plain label), rounded-rectangle paths, arc geometry, `save`/`restore` state or JPEG encoding.
- Loading the base image is assumed to succeed. Its failure is the handler's generic 500 error.
- The `/api/gerar-story` route is not modelled, except for its `iniciais` expression.
- `console.log` calls and the hard-coded credentials are not modelled.
- Field values that are not strings (numbers, objects) are not modelled. Content fields are strings, absent or `null`.
- Bullet entries are strings, objects with `texto`/`titulo`, or `null`. A number entry behaves like an object without those properties.
- A truthy `bullets` value that is not an array is reduced to whether its `length > 0` holds. An object that is not an array but carries its own `slice` and `forEach` is not modelled (a JSON body cannot carry functions).
- Palette and size lookups by inherited object keys (such as `"constructor"`) are not modelled. Only the listed keys map to a value.
- `Templates.CriarFallback` does not take the template argument, because the source ignores it.
- `Js.Upper`: upper-cases ASCII letters only and so keeps the length. The source's `toUpperCase` follows Unicode case mapping, which can lengthen a string ('ß' becomes "SS"). The bound `|r| <= 2` of `Branding.Initials` therefore holds for the model only, not for such names.
- `Js.Excerpt`: counts Dafny `char`s (Unicode scalar values), while `substring(0, 150)` counts UTF-16 code units. For text with characters outside the Basic Multilingual Plane, such as emoji, the model keeps more characters than the source in the fallback `resposta` and the `voce-sabia` and `premium` `resposta`/`insight` (150 emoji in the model, 75 in the source), and never splits a surrogate pair.
- `Branding.Initials`: a token's first character is a Dafny `char`, not a UTF-16 code unit. For characters outside the Basic Multilingual Plane it is weaker than the source.
- `Feed.FeedLayout`, `Feed.LogoDrawnLast` and `Feed.LogoFailureHarmless` are stated over `Assemble` for any theme lines and bullet block. `Feed.RenderFeed`, `Feed.FeedFails` and `Feed.LayoutIgnoresLogo` tie those to the wrapped theme and the actual bullet block.

One might expect every template to have a non-empty primary text. The code does not guarantee this. The `premium` headline and the `urgente` headline fall back to the bare theme and can be empty or undefined. The model follows the code (`Templates.HeadlineMayBeEmpty`).

One might also expect the bullet panel never to reach the footer. The code only guarantees that the box's bottom edge, `boxY + height`, is at least 70 above the footer box (`Feed.BulletBoxHeight`). The box's top is not bounded: in landscape with seven theme lines the box starts at 500, below the footer top at 458, and its height is negative (`Feed.TallHeaderPushesBoxPastFooter`). The rows drawn in the box are not clamped either (`Feed.LandscapeRowsReachFooter`).
