/** Template content normalisation: `processarConteudoPorTemplate` and
    `criarFallback` map a loosely typed content object, a fallback text and a
    theme (`tema`) onto the field record of one template. Each field is
    defaulted on its own with JavaScript's `x || default`. */
module Templates {
  import opened Js

  /** One entry of a bullet array: a string, an object that may carry `texto`
      or `titulo`, or `null`. Numbers and booleans behave like an object
      without those properties. */
  datatype Bullet = Plain(s: string) | Item(texto: JsString, titulo: JsString) | NullItem

  /** A `bullets` property: falsy (absent, `null`, `0`, `""`, `false`), an
      array, or a truthy value that is not an array, such as a string or an
      object, for which `positiveLength` says whether `length > 0` holds. */
  datatype BulletsValue = Falsy | NotArray(positiveLength: bool) | Array(items: seq<Bullet>)

  /** The named fields of a content object that the templates read. */
  datatype Fields = Fields(
    pergunta: JsString, resposta: JsString, destaque: JsString,
    titulo: JsString, bullets: BulletsValue, cta: JsString,
    numero: JsString, contexto: JsString, explicacao: JsString,
    fonte: JsString, alerta: JsString, prazo: JsString,
    risco: JsString, acao: JsString, headline: JsString,
    insight: JsString, conclusao: JsString)

  /** The `conteudo` argument: a falsy or non-object value, or an object. */
  datatype Content = NotAnObject | Object(fields: Fields)

  /** The `estatistica` record: empty (`{}`) in the fallback, filled otherwise. */
  datatype Statistic = EmptyStatistic | Statistic(numero: string, contexto: JsString, explicacao: string, fonte: string)

  /** The record returned for each template. `headline` is a `JsString`
      where the source can return `undefined` or `null` (through `tema`). */
  datatype Normalized =
    | Fallback(pergunta: string, resposta: string, destaque: string, headline: JsString,
               bullets: seq<Bullet>, estatistica: Statistic, cta: string)
    | VoceSabia(pergunta: string, resposta: string, destaque: string, cta: string)
    | Bullets(headline: JsString, bullets: seq<Bullet>, cta: string)
    | Estatistica(estatistica: Statistic, headline: JsString, cta: string)
    | Urgente(alerta: string, prazo: string, risco: string, acao: string,
              headline: JsString, destaque: string, cta: string)
    | Premium(headline: JsString, insight: string, conclusao: string, resposta: string,
              destaque: string, cta: string)

  /** The template identifiers with a dedicated branch. */
  const KnownTemplates: set<string> := {"voce-sabia", "bullets", "estatistica", "urgente", "premium"}

  const MaxBullets := 4

  /** `criarFallback(template, texto, tema)`; the template argument is unused. */
  function CriarFallback(texto: JsString, tema: JsString): (r: Normalized)
    ensures r.Fallback?
    ensures r.pergunta != "" && r.headline.Str? && r.headline.value != ""
    ensures Truthy(tema) ==> r.pergunta == "Você sabia sobre " + tema.value + "?" && r.headline == tema
    ensures !Truthy(tema) ==> r.pergunta == "Você sabia?" && r.headline == Str("Informação Jurídica")
    ensures r.resposta == Excerpt(texto)
    ensures r.destaque == "CONHEÇA SEUS DIREITOS!" && r.cta == "Arraste para saber mais"
    ensures r.bullets == [] && r.estatistica == EmptyStatistic
  {
    Fallback(
      pergunta := if Truthy(tema) then "Você sabia sobre " + tema.value + "?" else "Você sabia?",
      resposta := Excerpt(texto),
      destaque := "CONHEÇA SEUS DIREITOS!",
      headline := Str(Or(tema, "Informação Jurídica")),
      bullets := [],
      estatistica := EmptyStatistic,
      cta := "Arraste para saber mais")
  }

  /** `Array.isArray(b) ? b.slice(0, 4) : []`. */
  function FirstBullets(b: BulletsValue): seq<Bullet> {
    if b.Array? then Take(b.items, MaxBullets) else []
  }

  /** `processarConteudoPorTemplate(template, conteudo, textoFallback, tema)`. */
  function ProcessarConteudo(template: string, conteudo: Content, texto: JsString, tema: JsString): (r: Normalized)
    ensures r.cta != ""
    ensures conteudo.NotAnObject? || template !in KnownTemplates ==> r == CriarFallback(texto, tema)
    ensures r.VoceSabia? <==> conteudo.Object? && template == "voce-sabia"
    ensures r.Bullets? <==> conteudo.Object? && template == "bullets"
    ensures r.Estatistica? <==> conteudo.Object? && template == "estatistica"
    ensures r.Urgente? <==> conteudo.Object? && template == "urgente"
    ensures r.Premium? <==> conteudo.Object? && template == "premium"
  {
    if conteudo.NotAnObject? then CriarFallback(texto, tema)
    else
      var c := conteudo.fields;
      match template
      case "voce-sabia" =>
        VoceSabia(
          pergunta := Or(c.pergunta, Or(tema, "Você sabia?")),
          resposta := Or(c.resposta, Excerpt(texto)),
          destaque := Or(c.destaque, "SAIBA SEUS DIREITOS!"),
          cta := "Arraste para saber mais")
      case "bullets" =>
        Bullets(
          headline := Str(Or(c.titulo, "Seus direitos: " + Show(tema))),
          bullets := FirstBullets(c.bullets),
          cta := Or(c.cta, "Salve para não esquecer!"))
      case "estatistica" =>
        Estatistica(
          estatistica := Statistic(
            numero := Or(c.numero, "70%"),
            contexto := OrElse(c.contexto, tema),
            explicacao := Or(c.explicacao, ""),
            fonte := Or(c.fonte, "")),
          headline := Str(Or(c.numero, "") + " " + Show(OrElse(c.contexto, tema))),
          cta := "Proteja seus direitos!")
      case "urgente" =>
        Urgente(
          alerta := Or(c.alerta, "ATENÇÃO: " + Show(tema)),
          prazo := Or(c.prazo, ""),
          risco := Or(c.risco, ""),
          acao := Or(c.acao, "Consulte um advogado"),
          headline := OrElse(c.alerta, tema),
          destaque := "⚠️ URGENTE",
          cta := "Não perca o prazo!")
      case "premium" =>
        Premium(
          headline := OrElse(c.headline, tema),
          insight := Or(c.insight, Excerpt(texto)),
          conclusao := Or(c.conclusao, ""),
          resposta := Or(c.insight, ""),
          destaque := Or(c.conclusao, "Consultoria Especializada"),
          cta := "Agende uma consulta")
      case _ => CriarFallback(texto, tema)
  }

  // ---------------------------------------------------------------------------
  // What each template promises.

  /** `voce-sabia`: each provided field wins, otherwise its default; the
      question is never empty. */
  lemma VoceSabiaTemplate(c: Fields, texto: JsString, tema: JsString)
    ensures var r := ProcessarConteudo("voce-sabia", Object(c), texto, tema);
      && r.pergunta != ""
      && (Truthy(c.pergunta) ==> r.pergunta == c.pergunta.value)
      && (!Truthy(c.pergunta) && Truthy(tema) ==> r.pergunta == tema.value)
      && (!Truthy(c.pergunta) && !Truthy(tema) ==> r.pergunta == "Você sabia?")
      && (Truthy(c.resposta) ==> r.resposta == c.resposta.value)
      && (!Truthy(c.resposta) ==> r.resposta == Excerpt(texto))
      && (Truthy(c.destaque) ==> r.destaque == c.destaque.value)
      && (!Truthy(c.destaque) ==> r.destaque == "SAIBA SEUS DIREITOS!")
      && r.cta == "Arraste para saber mais"
  {
  }

  /** `bullets`: an array field yields its first `min(4, n)` entries in their
      original order, anything else yields no bullet. */
  lemma BulletsTemplate(c: Fields, texto: JsString, tema: JsString)
    ensures var r := ProcessarConteudo("bullets", Object(c), texto, tema);
      && |r.bullets| <= MaxBullets
      && (!c.bullets.Array? ==> r.bullets == [])
      && (c.bullets.Array? ==>
            |r.bullets| == (if |c.bullets.items| < MaxBullets then |c.bullets.items| else MaxBullets)
            && forall i :: 0 <= i < |r.bullets| ==> r.bullets[i] == c.bullets.items[i])
      && (Truthy(c.titulo) ==> r.headline == c.titulo)
      && (!Truthy(c.titulo) ==> r.headline == Str("Seus direitos: " + Show(tema)))
      && (Truthy(c.cta) ==> r.cta == c.cta.value)
      && (!Truthy(c.cta) ==> r.cta == "Salve para não esquecer!")
  {
  }

  /** `estatistica`: the record defaults `numero` to "70%" and `contexto` to
      the theme, but the headline uses the raw `numero` (or nothing), so it
      never shows the "70%" default. */
  lemma EstatisticaTemplate(c: Fields, texto: JsString, tema: JsString)
    ensures var r := ProcessarConteudo("estatistica", Object(c), texto, tema);
      && r.estatistica.Statistic?
      && r.estatistica.numero == (if Truthy(c.numero) then c.numero.value else "70%")
      && r.estatistica.contexto == (if Truthy(c.contexto) then c.contexto else tema)
      && r.estatistica.explicacao == Or(c.explicacao, "") && r.estatistica.fonte == Or(c.fonte, "")
      && r.headline == Str(Or(c.numero, "") + " " + Show(r.estatistica.contexto))
      && (!Truthy(c.numero) ==> r.headline.value[0] == ' ' && r.estatistica.numero == "70%")
      && r.cta == "Proteja seus direitos!"
  {
  }

  /** The worked example of a statistic card. */
  lemma EstatisticaExample()
    ensures var c := EmptyFields.(numero := Str("85%"), contexto := Str("consumer claims"),
                                 fonte := Str("survey 2024"));
      var r := ProcessarConteudo("estatistica", Object(c), Undefined, Str("consumer rights"));
      r.headline == Str("85% consumer claims") && r.estatistica.fonte == "survey 2024"
      && r.estatistica.explicacao == "" && r.cta == "Proteja seus direitos!"
  {
    assert Truthy(Str("85%")) && Truthy(Str("consumer claims"));
    assert "85%" + " " + "consumer claims" == "85% consumer claims";
  }

  /** `urgente`: the alert always has text, but the headline falls back to
      the theme alone, so it is empty or undefined when the theme is. */
  lemma UrgenteTemplate(c: Fields, texto: JsString, tema: JsString)
    ensures var r := ProcessarConteudo("urgente", Object(c), texto, tema);
      && r.alerta != ""
      && (Truthy(c.alerta) ==> r.alerta == c.alerta.value && r.headline == c.alerta)
      && (!Truthy(c.alerta) ==> r.alerta == "ATENÇÃO: " + Show(tema) && r.headline == tema)
      && r.prazo == Or(c.prazo, "") && r.risco == Or(c.risco, "")
      && r.acao == Or(c.acao, "Consulte um advogado")
      && r.destaque == "⚠️ URGENTE" && r.cta == "Não perca o prazo!"
  {
  }

  /** `premium`: the headline falls back to the theme alone; `resposta`
      mirrors the provided insight only, not its fallback text. */
  lemma PremiumTemplate(c: Fields, texto: JsString, tema: JsString)
    ensures var r := ProcessarConteudo("premium", Object(c), texto, tema);
      && r.headline == (if Truthy(c.headline) then c.headline else tema)
      && r.insight == (if Truthy(c.insight) then c.insight.value else Excerpt(texto))
      && r.resposta == Or(c.insight, "")
      && r.conclusao == Or(c.conclusao, "")
      && r.destaque == (if Truthy(c.conclusao) then c.conclusao.value else "Consultoria Especializada")
      && r.cta == "Agende uma consulta"
  {
  }

  /** With an empty object and an empty theme, neither `urgente` nor
      `premium` has a headline, while the fallback always has one. */
  lemma HeadlineMayBeEmpty()
    ensures ProcessarConteudo("premium", Object(EmptyFields), Undefined, Str("")).headline == Str("")
    ensures ProcessarConteudo("urgente", Object(EmptyFields), Undefined, Undefined).headline == Undefined
    ensures ProcessarConteudo("premium", NotAnObject, Undefined, Str("")).headline == Str("Informação Jurídica")
  {
  }

  /** A `null` theme is printed as "null" where a template literal shows it:
      in the `bullets` headline, the `urgente` alert and the `estatistica`
      headline; it is falsy everywhere else, like `undefined`. */
  lemma NullTheme()
    ensures ProcessarConteudo("bullets", Object(EmptyFields), Undefined, Null).headline == Str("Seus direitos: null")
    ensures ProcessarConteudo("urgente", Object(EmptyFields), Undefined, Null).alerta == "ATENÇÃO: null"
    ensures ProcessarConteudo("urgente", Object(EmptyFields), Undefined, Null).headline == Null
    ensures ProcessarConteudo("estatistica", Object(EmptyFields), Undefined, Null).headline == Str(" null")
    ensures ProcessarConteudo("voce-sabia", Object(EmptyFields), Undefined, Null).pergunta == "Você sabia?"
    ensures CriarFallback(Null, Null) == CriarFallback(Undefined, Undefined)
  {
    assert "" + " " + "null" == " null";
  }

  /** Every record except `premium` carries a non-empty primary text: the
      question, the headline or the alert. */
  lemma PrimaryTextNonEmpty(template: string, conteudo: Content, texto: JsString, tema: JsString)
    ensures var r := ProcessarConteudo(template, conteudo, texto, tema);
      && ((r.Fallback? || r.VoceSabia?) ==> r.pergunta != "")
      && ((r.Bullets? || r.Estatistica?) ==> r.headline.Str? && r.headline.value != "")
      && (r.Urgente? ==> r.alerta != "")
  {
  }

  // ---------------------------------------------------------------------------
  // Re-normalisation: a record fed back as content comes back unchanged.

  /** The content object with no property set, `{}`. */
  const EmptyFields := Fields(Undefined, Undefined, Undefined, Undefined, Falsy, Undefined,
                              Undefined, Undefined, Undefined, Undefined, Undefined, Undefined,
                              Undefined, Undefined, Undefined, Undefined, Undefined)

  /** A `voce-sabia` or `bullets` record written back as a content object,
      under the property names the template reads. */
  function AsContent(r: Normalized): Content {
    match r
    case VoceSabia(p, resp, d, _) =>
      Object(EmptyFields.(pergunta := Str(p), resposta := Str(resp), destaque := Str(d)))
    case Bullets(h, b, cta) =>
      Object(EmptyFields.(titulo := h, bullets := Array(b), cta := Str(cta)))
    case _ => NotAnObject
  }

  /** Normalising a `voce-sabia` or `bullets` record a second time is a no-op:
      every field the first pass produced is either non-empty (so it wins) or
      empty only because its default was empty too. */
  lemma {:induction false} RenormalizeIsStable(template: string, c: Fields, texto: JsString, tema: JsString)
    requires template == "voce-sabia" || template == "bullets"
    ensures var r := ProcessarConteudo(template, Object(c), texto, tema);
      ProcessarConteudo(template, AsContent(r), texto, tema) == r
  {
    var r := ProcessarConteudo(template, Object(c), texto, tema);
    if template == "bullets" {
      BulletsTemplate(c, texto, tema);
      var b := FirstBullets(c.bullets);
      assert Take(b, MaxBullets) == b;
    } else {
      VoceSabiaTemplate(c, texto, tema);
    }
  }

  /** The `estatistica` record is not stable: without a `numero`, the second
      pass reads back the "70%" default and the headline changes. */
  lemma EstatisticaNotStable()
    ensures var r := ProcessarConteudo("estatistica", Object(EmptyFields), Undefined, Str("x"));
      var again := EmptyFields.(numero := Str(r.estatistica.numero), contexto := r.estatistica.contexto);
      r.headline == Str(" x")
      && ProcessarConteudo("estatistica", Object(again), Undefined, Str("x")).headline == Str("70% x")
  {
    assert Truthy(Str("x")) && Truthy(Str("70%"));
    assert "" + " " + "x" == " x";
    assert "70%" + " " + "x" == "70% x";
  }
}
