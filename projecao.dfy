/** Day-by-day weight projection (utils.py, calcular_peso_projetado). */
module Projecao {
  import opened Texto
  import Metabolismo

  /** The trend a goal string selects. */
  datatype Tendencia = Perda | Ganho | Estavel

  /** Substring tests in the source's order: "Emagrecimento" wins over
      "Ganho de Massa" when a goal contains both. */
  function TendenciaDe(objetivo: string): (t: Tendencia)
    ensures t == Perda <==> Contem(objetivo, "Emagrecimento")
    ensures t == Ganho <==> !Contem(objetivo, "Emagrecimento") && Contem(objetivo, "Ganho de Massa")
    ensures t == Estavel <==> !Contem(objetivo, "Emagrecimento") && !Contem(objetivo, "Ganho de Massa")
  {
    if Contem(objetivo, "Emagrecimento") then Perda
    else if Contem(objetivo, "Ganho de Massa") then Ganho
    else Estavel
  }

  /** Kilograms per week of each trend. */
  function TaxaSemanal(t: Tendencia): real
  {
    match t
    case Perda => -0.5
    case Ganho => 0.25
    case Estavel => 0.0
  }

  /** calcular_peso_projetado: a linear trend of 0.5 kg lost or 0.25 kg gained
      per week, or no change. `dia` is any integer, as in the source. */
  function CalcularPesoProjetado(pesoInicial: real, objetivo: string, dia: int): (r: real)
    ensures r == pesoInicial + TaxaSemanal(TendenciaDe(objetivo)) * (dia as real) / 7.0
  {
    if Contem(objetivo, "Emagrecimento") then
      pesoInicial - (0.5 * (dia as real) / 7.0)
    else if Contem(objetivo, "Ganho de Massa") then
      pesoInicial + (0.25 * (dia as real) / 7.0)
    else
      pesoInicial
  }

  /** Day 0 is the initial weight for every goal string. */
  lemma PesoNoDiaZero(pesoInicial: real, objetivo: string)
    ensures CalcularPesoProjetado(pesoInicial, objetivo, 0) == pesoInicial
  {
  }

  /** Losing weight: the projection never rises as the day grows. */
  lemma PesoNaoCresceAoEmagrecer(pesoInicial: real, objetivo: string, d1: int, d2: int)
    requires Contem(objetivo, "Emagrecimento")
    requires d1 <= d2
    ensures CalcularPesoProjetado(pesoInicial, objetivo, d2) <= CalcularPesoProjetado(pesoInicial, objetivo, d1)
  {
  }

  /** Gaining mass (and not also losing weight): the projection never falls. */
  lemma PesoNaoDecresceAoGanhar(pesoInicial: real, objetivo: string, d1: int, d2: int)
    requires !Contem(objetivo, "Emagrecimento") && Contem(objetivo, "Ganho de Massa")
    requires d1 <= d2
    ensures CalcularPesoProjetado(pesoInicial, objetivo, d1) <= CalcularPesoProjetado(pesoInicial, objetivo, d2)
  {
  }

  /** Any other goal: the projection is constant. */
  lemma PesoConstanteNosDemais(pesoInicial: real, objetivo: string, dia: int)
    requires !Contem(objetivo, "Emagrecimento") && !Contem(objetivo, "Ganho de Massa")
    ensures CalcularPesoProjetado(pesoInicial, objetivo, dia) == pesoInicial
  {
  }

  /** One week moves the projection by exactly the weekly rate. */
  lemma UmaSemana(pesoInicial: real, objetivo: string, dia: int)
    ensures CalcularPesoProjetado(pesoInicial, objetivo, dia + 7)
            == CalcularPesoProjetado(pesoInicial, objetivo, dia) + TaxaSemanal(TendenciaDe(objetivo))
  {
  }

  /** A goal in which no "E" starts a possible match of "Emagrecimento", but
      which contains "Ganho de Massa", projects a gain. */
  lemma GanhoSemInicioE(objetivo: string)
    requires forall i :: 0 <= i <= |objetivo| - 13 ==> objetivo[i] != 'E'
    requires Contem(objetivo, "Ganho de Massa")
    ensures TendenciaDe(objetivo) == Ganho
  {
    NaoContemSemInicio(objetivo, "Emagrecimento");
  }

  /** A goal in which neither "E" nor "G" starts a possible match is stable. */
  lemma EstavelSemInicios(objetivo: string)
    requires forall i :: 0 <= i <= |objetivo| - 13 ==> objetivo[i] != 'E'
    requires forall i :: 0 <= i <= |objetivo| - 14 ==> objetivo[i] != 'G'
    ensures TendenciaDe(objetivo) == Estavel
  {
    NaoContemSemInicio(objetivo, "Emagrecimento");
    NaoContemSemInicio(objetivo, "Ganho de Massa");
  }

  /** How the four dictionary goals classify. */
  lemma TendenciaEmagrecimento()
    ensures TendenciaDe(Metabolismo.Objetivos[0]) == Perda
  {
    ContemPrefixo("Emagrecimento", " \U{1F4C9}");
  }

  lemma TendenciaGanhoDeMassa()
    ensures TendenciaDe(Metabolismo.Objetivos[1]) == Ganho
  {
    ContemPrefixo("Ganho de Massa", " \U{1F4AA}");
    GanhoSemInicioE(Metabolismo.Objetivos[1]);
  }

  lemma TendenciaManutencao()
    ensures TendenciaDe(Metabolismo.Objetivos[2]) == Estavel
  {
    EstavelSemInicios(Metabolismo.Objetivos[2]);
  }

  lemma TendenciaPerformance()
    ensures TendenciaDe(Metabolismo.Objetivos[3]) == Estavel
  {
    EstavelSemInicios(Metabolismo.Objetivos[3]);
  }

  /** The goal options of the profile form, which carry no emoji. */
  const ObjetivosFormulario: seq<string> := [
    "Emagrecimento", "Ganho de Massa Muscular", "Manuten\U{E7}\U{E3}o do Peso",
    "Aumento de Performance Esportiva"
  ]

  /** The form's options still classify as intended, because the match is by substring. */
  lemma TendenciaFormularioEmagrecimento()
    ensures TendenciaDe(ObjetivosFormulario[0]) == Perda
  {
    ContemPrefixo("Emagrecimento", "");
  }

  lemma TendenciaFormularioGanho()
    ensures TendenciaDe(ObjetivosFormulario[1]) == Ganho
  {
    ContemPrefixo("Ganho de Massa", " Muscular");
    GanhoSemInicioE(ObjetivosFormulario[1]);
  }

  lemma TendenciaFormularioManutencao()
    ensures TendenciaDe(ObjetivosFormulario[2]) == Estavel
  {
    EstavelSemInicios(ObjetivosFormulario[2]);
  }

  lemma TendenciaFormularioPerformance()
    ensures TendenciaDe(ObjetivosFormulario[3]) == Estavel
  {
    EstavelSemInicios(ObjetivosFormulario[3]);
  }
}
