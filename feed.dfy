/** The layout of a feed image (`/api/gerar-imagem`): the palette and size
    lookups, the header, footer and bullet panels, the bullet rows and the
    logo badge, produced as the ordered list of draw commands the handler
    issues on its canvas. Pixels, fonts and shadows are not modelled: each
    text draw stands for `drawTextWithShadow`, each box for `drawDarkBox`. */
module Feed {
  import opened Js
  import opened WordWrap
  import opened Templates

  // ---------------------------------------------------------------------------
  // Palettes and sizes.

  /** Text colour, accent colour and the (unused) dark fill of a palette. */
  datatype Palette = Palette(text: string, accent: string, dark: string)

  const Classico := Palette("#FFFFFF", "#D4AF37", "rgba(0,0,0,0.8)")
  const Moderno := Palette("#FFFFFF", "#FACC15", "rgba(15,23,42,0.85)")
  const Executivo := Palette("#FFFFFF", "#C9A050", "rgba(0,0,0,0.85)")
  const Acolhedor := Palette("#FFFFFF", "#FFB366", "rgba(30,20,10,0.8)")

  const Paletas: map<string, Palette> :=
    map["classico" := Classico, "moderno" := Moderno, "executivo" := Executivo, "acolhedor" := Acolhedor]

  /** `paletas[estilo] || paletas.classico`. */
  function PaletteFor(estilo: JsString): Palette {
    if estilo.Str? && estilo.value in Paletas then Paletas[estilo.value] else Classico
  }

  /** Canvas width and height in pixels. */
  datatype Size = Size(w: int, h: int)

  const Quadrado := Size(1080, 1080)
  const Stories := Size(1080, 1920)
  const Landscape := Size(1200, 628)

  const Dimensoes: map<string, Size> :=
    map["quadrado" := Quadrado, "stories" := Stories, "landscape" := Landscape]

  /** `dimensoes[formato] || dimensoes.quadrado`. */
  function SizeFor(formato: JsString): Size {
    if formato.Str? && formato.value in Dimensoes then Dimensoes[formato.value] else Quadrado
  }

  /** A known style gives its palette, anything else exactly the `classico` one. */
  lemma PaletteLookup(estilo: JsString)
    ensures estilo == Str("classico") ==> PaletteFor(estilo) == Classico
    ensures estilo == Str("moderno") ==> PaletteFor(estilo).accent == "#FACC15"
    ensures estilo == Str("executivo") ==> PaletteFor(estilo).accent == "#C9A050"
    ensures estilo == Str("acolhedor") ==> PaletteFor(estilo).accent == "#FFB366"
    ensures !estilo.Str? || estilo.value !in {"classico", "moderno", "executivo", "acolhedor"} ==>
              PaletteFor(estilo) == Classico
    ensures estilo.Str? && estilo.value in Paletas ==> PaletteFor(estilo) == Paletas[estilo.value]
    ensures PaletteFor(estilo).text == "#FFFFFF"
  {
  }

  /** A known format gives its size, anything else 1080 x 1080. */
  lemma SizeLookup(formato: JsString)
    ensures formato == Str("stories") ==> SizeFor(formato) == Size(1080, 1920)
    ensures formato == Str("landscape") ==> SizeFor(formato) == Size(1200, 628)
    ensures !formato.Str? || formato.value !in {"stories", "landscape"} ==> SizeFor(formato) == Size(1080, 1080)
  {
  }

  // ---------------------------------------------------------------------------
  // Panel geometry.

  const PaddingH := 60
  const TopoBoxY := 30
  const TopoBoxHeight := 180
  const TemaLineHeight := 50
  const RodapeBoxHeight := 140
  const BulletRowStep := 65
  const MaxRows := 5

  /** Height of the header box for a theme wrapped into `lineCount` lines:
      at least 180, and room for 80 pixels plus 50 per line. */
  function HeaderBoxHeight(lineCount: nat): (h: int)
    ensures h >= TopoBoxHeight && h >= 80 + TemaLineHeight * lineCount
    ensures h == TopoBoxHeight || h == 80 + TemaLineHeight * lineCount
  {
    var needed := 80 + TemaLineHeight * lineCount;
    if needed > TopoBoxHeight then needed else TopoBoxHeight
  }

  /** Top of the footer box: the box is 140 high and ends 30 above the bottom. */
  function FooterBoxY(canvasH: int): (y: int)
    ensures y + RodapeBoxHeight + 30 == canvasH
  {
    canvasH - RodapeBoxHeight - 30
  }

  /** Top of the bullet box: 40 below the header box. */
  function BulletBoxY(headerHeight: int): int {
    headerHeight + TopoBoxY + 40
  }

  /** Height of the bullet box for `count` bullets: 70 per bullet plus 60,
      clamped so that the box ends at least 70 above the footer box. */
  function BulletBoxHeight(count: nat, boxY: int, canvasH: int): (h: int)
    ensures h <= count * 70 + 60
    ensures boxY + h <= FooterBoxY(canvasH) - 70
    ensures h == count * 70 + 60 || boxY + h == FooterBoxY(canvasH) - 70
  {
    var wanted := count * 70 + 60;
    var room := canvasH - boxY - RodapeBoxHeight - 100;
    if wanted < room then wanted else room
  }

  /** Baseline of bullet row `index`. */
  function RowY(boxY: int, index: nat): int {
    boxY + 50 + BulletRowStep * index
  }

  /** The box is clamped, the rows are not: in the landscape format, with a
      one-line theme and five bullets, the box stops 70 above the footer but
      the last two rows start below the footer box's top. */
  lemma LandscapeRowsReachFooter()
    ensures var boxY := BulletBoxY(HeaderBoxHeight(1));
      && boxY + BulletBoxHeight(5, boxY, Landscape.h) == FooterBoxY(Landscape.h) - 70
      && RowY(boxY, 3) > FooterBoxY(Landscape.h)
      && RowY(boxY, 4) > FooterBoxY(Landscape.h)
  {
  }

  /** Only the box's bottom edge is bounded: in the landscape format a
      seven-line theme pushes the box's top below the footer's top, and the
      clamped height turns negative. */
  lemma TallHeaderPushesBoxPastFooter()
    ensures var boxY := BulletBoxY(HeaderBoxHeight(7));
      && boxY == 500 && boxY > FooterBoxY(Landscape.h)
      && BulletBoxHeight(1, boxY, Landscape.h) == -112
  {
  }

  // ---------------------------------------------------------------------------
  // Draw commands.

  /** The fonts set on the context before measuring or drawing. */
  datatype Font = BoldArial28 | BoldArial42 | BoldGeorgia42 | BoldArial36 | Arial26 | Arial32

  datatype Align = Center | Left

  /** What the handler paints, in order. Opacities are in hundredths. */
  datatype Draw =
    | Photo(w: int, h: int)
    | DarkBox(x: int, y: int, w: int, h: int, radius: int, opacity: int)
    | Label(text: string, x: int, y: int, color: string, font: Font, align: Align)
    | Disc(cx: int, cy: int, r: int, opacity: int)
    | Picture(uri: string, x: int, y: int, size: int)

  /** `measureText` under each font. */
  type Metrics = Font -> Measure

  /** `drawDarkBox(ctx, 60, y, w - 120, h, 20, opacity)`: a panel spanning the
      canvas between the side paddings. */
  function Panel(canvasW: int, y: int, h: int, opacity: int): Draw {
    DarkBox(PaddingH, y, canvasW - PaddingH * 2, h, 20, opacity)
  }

  /** The labels `drawMultilineText` draws: line `i` at `y + i * lineHeight`. */
  function MultilineLabels(lines: seq<string>, x: int, y: int, lineHeight: int, color: string, font: Font, align: Align): (r: seq<Draw>)
    ensures |r| == |lines|
  {
    seq(|lines|, i requires 0 <= i < |lines| => Label(lines[i], x, y + i * lineHeight, color, font, align))
  }

  /** `drawMultilineText(ctx, lines, x, y, lineHeight, align)`. */
  method DrawMultilineText(lines: seq<string>, x: int, y: int, lineHeight: int, color: string, font: Font, align: Align)
    returns (cmds: seq<Draw>)
    ensures cmds == MultilineLabels(lines, x, y, lineHeight, color, font, align)
  {
    cmds := [];
    for i := 0 to |lines|
      invariant |cmds| == i
      invariant forall j :: 0 <= j < i ==> cmds[j] == Label(lines[j], x, y + j * lineHeight, color, font, align)
    {
      cmds := cmds + [Label(lines[i], x, y + i * lineHeight, color, font, align)];
    }
  }

  // ---------------------------------------------------------------------------
  // Bullets.

  /** `typeof b === 'string' ? b : b.texto || b.titulo || ''`; a `null` entry
      throws and is excluded here. */
  function BulletText(b: Bullet): (text: string)
    requires !b.NullItem?
    ensures b.Plain? ==> text == b.s
    ensures b.Item? && Truthy(b.texto) ==> text == b.texto.value
    ensures b.Item? && !Truthy(b.texto) && Truthy(b.titulo) ==> text == b.titulo.value
    ensures text == "" <==> b == Plain("") || (b.Item? && !Truthy(b.texto) && !Truthy(b.titulo))
  {
    match b
    case Plain(s) => s
    case Item(texto, titulo) => Or(texto, Or(titulo, ""))
  }

  /** None of the first `n` entries is `null`, so reading their `texto`
      never throws. */
  predicate ReadableUpTo(items: seq<Bullet>, n: nat)
    requires n <= |items|
  {
    forall j :: 0 <= j < n ==> !items[j].NullItem?
  }

  /** No entry is `null`. */
  predicate Readable(items: seq<Bullet>) {
    ReadableUpTo(items, |items|)
  }

  /** The only line of a bullet that is drawn: the first line of its wrap in
      `32px Arial` against `w - 220`, or `''`. */
  function FirstLine(text: string, canvasW: int, metrics: Metrics): string {
    var lines := Wrap(text, metrics(Arial32), canvasW - PaddingH * 2 - 100);
    if |lines| > 0 then lines[0] else ""
  }

  /** The line drawn for each entry of `shown`. */
  function DisplayedLines(shown: seq<Bullet>, canvasW: int, metrics: Metrics): (lines: seq<string>)
    requires Readable(shown)
    ensures |lines| == |shown|
  {
    seq(|shown|, i requires 0 <= i < |shown| => FirstLine(BulletText(shown[i]), canvasW, metrics))
  }

  /** The two draws of one bullet row: the accent check mark, then the text. */
  function Row(line: string, y: int, p: Palette): seq<Draw> {
    [Label("✓", PaddingH + 40, y, p.accent, Arial32, Left),
     Label(line, PaddingH + 80, y, p.text, Arial32, Left)]
  }

  /** The rows showing `lines`, in order. */
  function Rows(lines: seq<string>, boxY: int, p: Palette): seq<Draw>
    decreases |lines|
  {
    if |lines| == 0 then []
    else
      var k := |lines| - 1;
      Rows(lines[..k], boxY, p) + Row(lines[k], RowY(boxY, k), p)
  }

  /** Row `i` is drawn at `boxY + 50 + 65 i`: its check mark at x = 100 and
      line `i` at x = 140. */
  lemma {:induction false} RowsLayout(lines: seq<string>, boxY: int, p: Palette)
    ensures var rows := Rows(lines, boxY, p);
      && |rows| == 2 * |lines|
      && forall i :: 0 <= i < |lines| ==>
           && rows[2 * i] == Label("✓", 100, boxY + 50 + 65 * i, p.accent, Arial32, Left)
           && rows[2 * i + 1] == Label(lines[i], 140, boxY + 50 + 65 * i, p.text, Arial32, Left)
    decreases |lines|
  {
    if |lines| > 0 {
      var k := |lines| - 1;
      var prefix := lines[..k];
      RowsLayout(prefix, boxY, p);
      var before := Rows(prefix, boxY, p);
      var last := Row(lines[k], RowY(boxY, k), p);
      var rows := Rows(lines, boxY, p);
      assert rows == before + last;
      forall i | 0 <= i < |lines|
        ensures rows[2 * i] == Label("✓", 100, boxY + 50 + 65 * i, p.accent, Arial32, Left)
        ensures rows[2 * i + 1] == Label(lines[i], 140, boxY + 50 + 65 * i, p.text, Arial32, Left)
      {
        if i < k {
          assert prefix[i] == lines[i];
          assert rows[2 * i] == before[2 * i];
          assert rows[2 * i + 1] == before[2 * i + 1];
        } else {
          assert rows[2 * i] == last[0];
          assert rows[2 * i + 1] == last[1];
        }
      }
    }
  }

  /** A well-spaced text is not empty. */
  lemma WellSpacedNonEmpty(text: string)
    requires WellSpaced(text)
    ensures text != ""
  {
    assert Words(text)[0] in Words(text);
  }

  /** For a well-spaced bullet text, the drawn line is a non-empty prefix of
      the text: a long bullet is cut after its first line, never reflowed. */
  lemma FirstLineIsPrefix(text: string, canvasW: int, metrics: Metrics)
    requires WellSpaced(text)
    ensures FirstLine(text, canvasW, metrics) <= text
    ensures FirstLine(text, canvasW, metrics) != ""
  {
    var m := metrics(Arial32);
    var mw := canvasW - PaddingH * 2 - 100;
    WrapJoin(text, m, mw);
    WrapLinesNonEmpty(text, m, mw);
    WellSpacedNonEmpty(text);
    var lines := Wrap(text, m, mw);
    assert |lines| > 0;
    assert lines[0] in lines;
    JoinStartsWithFirst(lines, " ");
  }

  /** The lines of the first `n` shown bullets. */
  function LinesUpTo(shown: seq<Bullet>, n: nat, canvasW: int, metrics: Metrics): (lines: seq<string>)
    requires n <= |shown| && ReadableUpTo(shown, n)
    ensures |lines| == n
  {
    seq(n, j requires 0 <= j < n => FirstLine(BulletText(shown[j]), canvasW, metrics))
  }

  /** Drawing one more bullet appends its row at the next row position. */
  lemma RowsAppend(shown: seq<Bullet>, n: nat, boxY: int, canvasW: int, p: Palette, metrics: Metrics)
    requires n < |shown| && ReadableUpTo(shown, n + 1)
    ensures var line := FirstLine(BulletText(shown[n]), canvasW, metrics);
      Rows(LinesUpTo(shown, n + 1, canvasW, metrics), boxY, p)
        == Rows(LinesUpTo(shown, n, canvasW, metrics), boxY, p) + Row(line, RowY(boxY, n), p)
  {
    var lines := LinesUpTo(shown, n + 1, canvasW, metrics);
    assert lines[..n] == LinesUpTo(shown, n, canvasW, metrics);
  }

  /** The first line of one bullet, through the imperative `wrapText`. */
  method BulletLine(text: string, canvasW: int, metrics: Metrics) returns (line: string)
    ensures line == FirstLine(text, canvasW, metrics)
  {
    var bulletLines := WrapText(text, metrics(Arial32), canvasW - PaddingH * 2 - 100);
    line := if |bulletLines| > 0 then bulletLines[0] else "";
  }

  /** `bulletsArray.slice(0, 5).forEach(...)`: the rows of the first five
      bullets, or `None` when one of them is `null` (the handler throws). */
  method DrawBullets(bullets: seq<Bullet>, boxY: int, canvasW: int, p: Palette, metrics: Metrics)
    returns (rows: Option<seq<Draw>>)
    ensures var shown := Take(bullets, MaxRows);
      rows == if Readable(shown) then Some(Rows(DisplayedLines(shown, canvasW, metrics), boxY, p)) else None
  {
    var shown := Take(bullets, MaxRows);
    var cmds: seq<Draw> := [];
    for i := 0 to |shown|
      invariant ReadableUpTo(shown, i)
      invariant cmds == Rows(LinesUpTo(shown, i, canvasW, metrics), boxY, p)
    {
      var bullet := shown[i];
      if bullet.NullItem? {
        return None;
      }
      var y := boxY + 50 + i * BulletRowStep;
      var line := BulletLine(BulletText(bullet), canvasW, metrics);
      RowsAppend(shown, i, boxY, canvasW, p, metrics);
      cmds := cmds + [Label("✓", PaddingH + 40, y, p.accent, Arial32, Left), Label(line, PaddingH + 80, y, p.text, Arial32, Left)];
    }
    assert LinesUpTo(shown, |shown|, canvasW, metrics) == DisplayedLines(shown, canvasW, metrics);
    rows := Some(cmds);
  }

  // ---------------------------------------------------------------------------
  // Logo.

  /** `logo.startsWith('data:') ? logo : 'data:image/png;base64,' + logo`. */
  function LogoUri(logo: string): (uri: string)
    ensures "data:" <= uri
    ensures |logo| <= |uri| && uri[|uri| - |logo|..] == logo
    ensures "data:" <= logo ==> uri == logo
    ensures !("data:" <= logo) ==> uri == "data:image/png;base64," + logo
  {
    if "data:" <= logo then logo else "data:image/png;base64," + logo
  }

  /** Normalising a logo twice changes nothing. */
  lemma LogoUriIdempotent(logo: string)
    ensures LogoUri(LogoUri(logo)) == LogoUri(logo)
  {
  }

  /** The badge: a dark disc of radius 40 behind a 70 x 70 logo placed 110
      from the right edge and 40 from the top, drawn only when the logo is
      set and decodes (`decodes` stands for `loadImage` succeeding). */
  function LogoBadge(logo: JsString, canvasW: int, decodes: string -> bool): seq<Draw> {
    if Truthy(logo) && decodes(LogoUri(logo.value)) then
      var x := canvasW - 110;
      [Disc(x + 35, 40 + 35, 35 + 5, 60), Picture(LogoUri(logo.value), x, 40, 70)]
    else []
  }

  // ---------------------------------------------------------------------------
  // The whole feed image.

  /** The fields of the request body the layout reads. */
  datatype FeedRequest = FeedRequest(
    tema: JsString, area: JsString, nomeAdvogado: JsString, oab: JsString,
    formato: JsString, estilo: JsString, logo: JsString,
    bullets: BulletsValue, conteudo: Content)

  /** `bullets || conteudo?.bullets || []`: the first truthy value, so an
      array sent with the request wins even when it is empty, and a truthy
      value that is not an array is taken as it is. */
  function ChosenBullets(req: FeedRequest): (v: BulletsValue)
    ensures !v.Falsy?
    ensures !req.bullets.Falsy? ==> v == req.bullets
    ensures req.bullets.Falsy? && req.conteudo.Object? && !req.conteudo.fields.bullets.Falsy? ==>
              v == req.conteudo.fields.bullets
    ensures req.bullets.Falsy? && (req.conteudo.NotAnObject? || req.conteudo.fields.bullets.Falsy?) ==> v == Array([])
  {
    if !req.bullets.Falsy? then req.bullets
    else if req.conteudo.Object? && !req.conteudo.fields.bullets.Falsy? then req.conteudo.fields.bullets
    else Array([])
  }

  /** The entries the handler iterates over: those of the chosen array, and
      none for a value that is not an array. */
  function BulletsArray(req: FeedRequest): (items: seq<Bullet>)
    ensures ChosenBullets(req).Array? ==> items == ChosenBullets(req).items
    ensures ChosenBullets(req).NotArray? ==> items == []
  {
    var v := ChosenBullets(req);
    if v.Array? then v.items else []
  }

  /** A chosen value that is not an array but has a positive `length` passes
      the `length > 0` test, and then `slice(0, 5).forEach` throws. */
  predicate BulletsThrow(req: FeedRequest) {
    ChosenBullets(req) == NotArray(true)
  }

  /** The theme wrapped in `bold 42px Arial` against `w - 160`. */
  function TemaLines(req: FeedRequest, metrics: Metrics): seq<string> {
    Wrap(Or(req.tema, ""), metrics(BoldArial42), SizeFor(req.formato).w - PaddingH * 2 - 40)
  }

  /** The header panel, the optional area label and the theme lines. */
  function Header(req: FeedRequest, temaLines: seq<string>): seq<Draw> {
    var size := SizeFor(req.formato);
    var p := PaletteFor(req.estilo);
    [Panel(size.w, TopoBoxY, HeaderBoxHeight(|temaLines|), 80)]
    + (if Truthy(req.area) then [Label(Upper(req.area.value), size.w / 2, TopoBoxY + 45, p.accent, BoldArial28, Center)] else [])
    + (if Truthy(req.tema) then MultilineLabels(temaLines, size.w / 2, TopoBoxY + 90, TemaLineHeight, p.text, BoldGeorgia42, Center) else [])
  }

  /** The footer panel with the optional name and registration lines. */
  function Footer(req: FeedRequest): seq<Draw> {
    var size := SizeFor(req.formato);
    var p := PaletteFor(req.estilo);
    var y := FooterBoxY(size.h);
    [Panel(size.w, y, RodapeBoxHeight, 80)]
    + (if Truthy(req.nomeAdvogado) then [Label(req.nomeAdvogado.value, size.w / 2, y + 55, p.accent, BoldArial36, Center)] else [])
    + (if Truthy(req.oab) then [Label(req.oab.value, size.w / 2, y + 100, p.text, Arial26, Center)] else [])
  }

  /** The bullet box, sized for all `count` bullets, and the rows of `lines`. */
  function BulletBlock(req: FeedRequest, headerHeight: int, count: nat, lines: seq<string>): seq<Draw> {
    var size := SizeFor(req.formato);
    var boxY := BulletBoxY(headerHeight);
    [Panel(size.w, boxY, BulletBoxHeight(count, boxY, size.h), 75)] + Rows(lines, boxY, PaletteFor(req.estilo))
  }

  /** The bullet panel and its rows, when there are bullets; `None` when the
      chosen value is not an array but has a positive length, or when one of
      the first five entries is `null`. */
  function BulletPanel(req: FeedRequest, headerHeight: int, metrics: Metrics): Option<seq<Draw>> {
    var items := BulletsArray(req);
    var shown := Take(items, MaxRows);
    if BulletsThrow(req) then None
    else if |items| == 0 then Some([])
    else if !Readable(shown) then None
    else Some(BulletBlock(req, headerHeight, |items|, DisplayedLines(shown, SizeFor(req.formato).w, metrics)))
  }

  /** The draws of the feed image once the theme is wrapped into `temaLines`
      and the bullet block is built, in the order the handler issues them. */
  function Assemble(req: FeedRequest, temaLines: seq<string>, bullets: seq<Draw>, decodes: string -> bool): seq<Draw> {
    var size := SizeFor(req.formato);
    [Photo(size.w, size.h)] + Header(req, temaLines) + Footer(req) + bullets + LogoBadge(req.logo, size.w, decodes)
  }

  /** Every draw of the feed image, or `None` when the handler throws. */
  function FeedCommands(req: FeedRequest, metrics: Metrics, decodes: string -> bool): Option<seq<Draw>> {
    var temaLines := TemaLines(req, metrics);
    match BulletPanel(req, HeaderBoxHeight(|temaLines|), metrics)
    case None => None
    case Some(bullets) => Some(Assemble(req, temaLines, bullets, decodes))
  }

  /** The header block of the handler: the panel, the upper-cased area and
      the theme lines. */
  method DrawHeader(req: FeedRequest, temaLines: seq<string>) returns (header: seq<Draw>)
    ensures header == Header(req, temaLines)
  {
    var p := PaletteFor(req.estilo);
    var dim := SizeFor(req.formato);
    header := [Panel(dim.w, TopoBoxY, HeaderBoxHeight(|temaLines|), 80)];
    if Truthy(req.area) {
      header := header + [Label(Upper(req.area.value), dim.w / 2, TopoBoxY + 45, p.accent, BoldArial28, Center)];
    }
    if Truthy(req.tema) {
      var lines := DrawMultilineText(temaLines, dim.w / 2, TopoBoxY + 90, TemaLineHeight, p.text, BoldGeorgia42, Center);
      header := header + lines;
    }
  }

  /** The footer block of the handler: the panel, the name and the OAB line. */
  method DrawFooter(req: FeedRequest) returns (footer: seq<Draw>)
    ensures footer == Footer(req)
  {
    var p := PaletteFor(req.estilo);
    var dim := SizeFor(req.formato);
    var rodapeBoxY := FooterBoxY(dim.h);
    footer := [Panel(dim.w, rodapeBoxY, RodapeBoxHeight, 80)];
    if Truthy(req.nomeAdvogado) {
      footer := footer + [Label(req.nomeAdvogado.value, dim.w / 2, rodapeBoxY + 55, p.accent, BoldArial36, Center)];
    }
    if Truthy(req.oab) {
      footer := footer + [Label(req.oab.value, dim.w / 2, rodapeBoxY + 100, p.text, Arial26, Center)];
    }
  }

  /** The bullet block of the handler: nothing without bullets, otherwise the
      panel sized for all of them and the rows of the first five. */
  method DrawBulletPanel(req: FeedRequest, headerHeight: int, metrics: Metrics) returns (panel: Option<seq<Draw>>)
    ensures panel == BulletPanel(req, headerHeight, metrics)
  {
    var p := PaletteFor(req.estilo);
    var dim := SizeFor(req.formato);
    if BulletsThrow(req) {
      return None;
    }
    var bulletsArray := BulletsArray(req);
    if |bulletsArray| == 0 {
      return Some([]);
    }
    var bulletBoxY := BulletBoxY(headerHeight);
    var box := Panel(dim.w, bulletBoxY, BulletBoxHeight(|bulletsArray|, bulletBoxY, dim.h), 75);
    var rows := DrawBullets(bulletsArray, bulletBoxY, dim.w, p, metrics);
    if rows.None? {
      return None;
    }
    panel := Some([box] + rows.value);
  }

  /** The body of the `/api/gerar-imagem` handler from the canvas creation to
      the last draw, as a sequence of draws on one canvas. */
  method RenderFeed(req: FeedRequest, metrics: Metrics, decodes: string -> bool) returns (out: Option<seq<Draw>>)
    ensures out == FeedCommands(req, metrics, decodes)
  {
    var dim := SizeFor(req.formato);
    var cmds := [Photo(dim.w, dim.h)];
    var temaLines := WrapText(Or(req.tema, ""), metrics(BoldArial42), dim.w - PaddingH * 2 - 40);
    var header := DrawHeader(req, temaLines);
    cmds := cmds + header;
    var footer := DrawFooter(req);
    cmds := cmds + footer;
    var bulletPanel := DrawBulletPanel(req, HeaderBoxHeight(|temaLines|), metrics);
    if bulletPanel.None? {
      return None;
    }
    cmds := cmds + bulletPanel.value;
    cmds := cmds + LogoBadge(req.logo, dim.w, decodes);
    out := Some(cmds);
  }

  // ---------------------------------------------------------------------------
  // Properties of the layout.

  /** The bullet block is empty without bullets and fails exactly when the
      chosen value is a non-array with a positive length or one of the first
      five bullets is `null`. */
  lemma BulletPanelFails(req: FeedRequest, headerHeight: int, metrics: Metrics)
    ensures var items := BulletsArray(req);
      var panel := BulletPanel(req, headerHeight, metrics);
      && (|items| == 0 && !BulletsThrow(req) ==> panel == Some([]))
      && (panel.None? <==> BulletsThrow(req) || exists j :: 0 <= j < |items| && j < MaxRows && items[j].NullItem?)
  {
    var items := BulletsArray(req);
    var shown := Take(items, MaxRows);
    forall j | 0 <= j < |items| && j < MaxRows
      ensures shown[j] == items[j]
    {
    }
  }

  /** The bullet block for any lines: the box, sized for every bullet and
      ending at least 70 above the footer box, then two draws per line, row
      `i` at `boxY + 50 + 65 i`. */
  lemma BulletBlockShape(req: FeedRequest, headerHeight: int, count: nat, lines: seq<string>)
    ensures var cmds := BulletBlock(req, headerHeight, count, lines);
      var size := SizeFor(req.formato);
      var boxY := BulletBoxY(headerHeight);
      var p := PaletteFor(req.estilo);
      && |cmds| == 1 + 2 * |lines|
      && cmds[0] == DarkBox(60, boxY, size.w - 120, BulletBoxHeight(count, boxY, size.h), 20, 75)
      && boxY + cmds[0].h <= FooterBoxY(size.h) - 70
      && forall i :: 0 <= i < |lines| ==>
           && cmds[1 + 2 * i] == Label("✓", 100, boxY + 50 + 65 * i, p.accent, Arial32, Left)
           && cmds[2 + 2 * i] == Label(lines[i], 140, boxY + 50 + 65 * i, p.text, Arial32, Left)
  {
    var boxY := BulletBoxY(headerHeight);
    var p := PaletteFor(req.estilo);
    var rows := Rows(lines, boxY, p);
    RowsLayout(lines, boxY, p);
    var cmds := BulletBlock(req, headerHeight, count, lines);
    forall i | 0 <= i < |lines|
      ensures cmds[1 + 2 * i] == rows[2 * i]
      ensures cmds[2 + 2 * i] == rows[2 * i + 1]
    {
    }
  }

  /** A successful bullet block with bullets is laid out for all of them and
      shows the first wrapped line of each of the first five. */
  lemma BulletPanelShape(req: FeedRequest, headerHeight: int, metrics: Metrics)
    ensures var items := BulletsArray(req);
      var panel := BulletPanel(req, headerHeight, metrics);
      var shown := Take(items, MaxRows);
      panel.Some? && |items| > 0 ==>
        && Readable(shown)
        && |shown| == (if |items| < MaxRows then |items| else MaxRows)
        && panel.value == BulletBlock(req, headerHeight, |items|, DisplayedLines(shown, SizeFor(req.formato).w, metrics))
  {
  }

  /** How many draws come before the footer box: the photo, the header box,
      the area label when there is an area and one label per theme line when
      there is a theme. */
  function FooterIndex(req: FeedRequest, temaLines: seq<string>): (k: nat)
    ensures 2 <= k <= 3 + |temaLines|
  {
    2 + (if Truthy(req.area) then 1 else 0) + (if Truthy(req.tema) then |temaLines| else 0)
  }

  /** The header block is the box, the optional area label and one label per
      theme line when there is a theme. */
  lemma HeaderLength(req: FeedRequest, temaLines: seq<string>)
    ensures |Header(req, temaLines)| + 1 == FooterIndex(req, temaLines)
  {
  }

  /** The header block for any theme lines: the box of height at least 180,
      the area label when there is an area, then the theme lines at
      `120 + 50 i` when there is a theme. */
  lemma HeaderShape(req: FeedRequest, temaLines: seq<string>)
    ensures var header := Header(req, temaLines);
      var size := SizeFor(req.formato);
      var a := if Truthy(req.area) then 1 else 0;
      && |header| + 1 == FooterIndex(req, temaLines)
      && header[0] == DarkBox(60, 30, size.w - 120, HeaderBoxHeight(|temaLines|), 20, 80)
      && header[0].h >= 180
      && (Truthy(req.tema) ==> forall i :: 0 <= i < |temaLines| ==>
            header[1 + a + i] == Label(temaLines[i], size.w / 2, 120 + 50 * i, PaletteFor(req.estilo).text, BoldGeorgia42, Center))
  {
    HeaderLength(req, temaLines);
    if Truthy(req.tema) {
      HeaderThemeLabels(req, temaLines);
    }
  }

  /** With a theme, the header block ends with one label per theme line. */
  lemma HeaderThemeLabels(req: FeedRequest, temaLines: seq<string>)
    requires Truthy(req.tema)
    ensures var header := Header(req, temaLines);
      var size := SizeFor(req.formato);
      var a := if Truthy(req.area) then 1 else 0;
      var labels := MultilineLabels(temaLines, size.w / 2, TopoBoxY + 90, TemaLineHeight, PaletteFor(req.estilo).text, BoldGeorgia42, Center);
      |header| == 1 + a + |temaLines| && header[1 + a..] == labels
  {
  }

  /** The feed image fails exactly when the chosen bullets are a non-array
      with a positive length or one of the first five bullets is `null`. */
  lemma FeedFails(req: FeedRequest, metrics: Metrics, decodes: string -> bool)
    ensures var items := BulletsArray(req);
      FeedCommands(req, metrics, decodes).None? <==>
        BulletsThrow(req) || exists j :: 0 <= j < |items| && j < MaxRows && items[j].NullItem?
  {
    BulletPanelFails(req, HeaderBoxHeight(|TemaLines(req, metrics)|), metrics);
  }

  /** The feed image starts with the photo covering the canvas and the header
      block, then the footer box at `h - 170`. */
  lemma FeedLayout(req: FeedRequest, temaLines: seq<string>, bullets: seq<Draw>, decodes: string -> bool)
    ensures var cmds := Assemble(req, temaLines, bullets, decodes);
      var size := SizeFor(req.formato);
      var f := FooterIndex(req, temaLines);
      && |cmds| > f
      && cmds[0] == Photo(size.w, size.h)
      && cmds[1..f] == Header(req, temaLines)
      && cmds[f] == DarkBox(60, size.h - 170, size.w - 120, 140, 20, 80)
  {
    var size := SizeFor(req.formato);
    var header := Header(req, temaLines);
    var badge := LogoBadge(req.logo, size.w, decodes);
    var rest := Footer(req) + bullets + badge;
    var cmds := Assemble(req, temaLines, bullets, decodes);
    HeaderLength(req, temaLines);
    var f := FooterIndex(req, temaLines);
    assert cmds == [Photo(size.w, size.h)] + header + rest;
    assert cmds[1..f] == header;
    assert cmds[f] == rest[0] == Footer(req)[0];
  }

  /** A logo that is set and decodes is drawn last, 70 x 70 at
      `(w - 110, 40)`, over its disc. */
  lemma LogoDrawnLast(req: FeedRequest, temaLines: seq<string>, bullets: seq<Draw>, decodes: string -> bool)
    requires Truthy(req.logo) && decodes(LogoUri(req.logo.value))
    ensures var cmds := Assemble(req, temaLines, bullets, decodes);
      var w := SizeFor(req.formato).w;
      && cmds[|cmds| - 2] == Disc(w - 75, 75, 40, 60)
      && cmds[|cmds| - 1] == Picture(LogoUri(req.logo.value), w - 110, 40, 70)
  {
  }

  /** A logo that fails to load is caught and leaves the image exactly as if
      no logo had been sent. */
  lemma LogoFailureHarmless(req: FeedRequest, temaLines: seq<string>, bullets: seq<Draw>, decodes: string -> bool)
    requires Truthy(req.logo) && !decodes(LogoUri(req.logo.value))
    ensures Assemble(req, temaLines, bullets, decodes) == Assemble(req.(logo := Undefined), temaLines, bullets, decodes)
  {
  }

  /** Sending an empty bullet array suppresses the panel, whatever bullets
      the content object carries. */
  lemma EmptyRequestBulletsSuppressPanel(req: FeedRequest, headerHeight: int, metrics: Metrics)
    requires req.bullets == Array([])
    ensures BulletPanel(req, headerHeight, metrics) == Some([])
  {
  }

  /** Content bullets that are a string such as "abc" (truthy, length 3)
      make the image fail when the request sends none; a number (no
      `length`) draws no panel. */
  lemma NonArrayContentBullets(req: FeedRequest, metrics: Metrics, decodes: string -> bool)
    requires req.bullets.Falsy? && req.conteudo.Object?
    ensures req.conteudo.fields.bullets == NotArray(true) ==> FeedCommands(req, metrics, decodes).None?
    ensures req.conteudo.fields.bullets == NotArray(false) ==>
              BulletPanel(req, HeaderBoxHeight(|TemaLines(req, metrics)|), metrics) == Some([])
  {
  }

  /** The theme lines and the bullet block do not depend on the logo. */
  lemma LayoutIgnoresLogo(req: FeedRequest, headerHeight: int, metrics: Metrics, logo: JsString)
    ensures TemaLines(req.(logo := logo), metrics) == TemaLines(req, metrics)
    ensures BulletPanel(req.(logo := logo), headerHeight, metrics) == BulletPanel(req, headerHeight, metrics)
  {
  }
}
