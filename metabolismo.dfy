/** Basal metabolic rate and daily calorie target (utils.py, calcular_tmb and
    calcular_calorias_diarias). Numbers are exact reals: the decimal constants
    of the source are represented without binary rounding. */
module Metabolismo {

  /** The one sex string that selects the male equation. */
  const Masculino := "Masculino"

  /** calcular_tmb: the Harris-Benedict equation with the source's rounded
      coefficients, male for exactly "Masculino" and female for every other
      string. */
  function CalcularTmb(peso: real, altura: real, idade: int, sexo: string): real
  {
    if sexo == Masculino then 88.36 + (13.4 * peso) + (4.8 * altura) - (5.7 * (idade as real))
    else 447.6 + (9.2 * peso) + (3.1 * altura) - (4.3 * (idade as real))
  }

  /** Any string other than "Masculino" (empty, misspelt, or a third option)
      gets exactly the value computed for "Feminino". */
  lemma TmbDemaisValoresSaoFemininos(peso: real, altura: real, idade: int, sexo: string)
    requires sexo != Masculino
    ensures CalcularTmb(peso, altura, idade, sexo) == CalcularTmb(peso, altura, idade, "Feminino")
  {
  }

  /** For a fixed sex the rate strictly grows with weight... */
  lemma TmbCresceComPeso(p1: real, p2: real, altura: real, idade: int, sexo: string)
    requires p1 < p2
    ensures CalcularTmb(p1, altura, idade, sexo) < CalcularTmb(p2, altura, idade, sexo)
  {
  }

  /** ...strictly grows with height... */
  lemma TmbCresceComAltura(peso: real, a1: real, a2: real, idade: int, sexo: string)
    requires a1 < a2
    ensures CalcularTmb(peso, a1, idade, sexo) < CalcularTmb(peso, a2, idade, sexo)
  {
  }

  /** ...and strictly falls with age. */
  lemma TmbDecresceComIdade(peso: real, altura: real, i1: int, i2: int, sexo: string)
    requires i1 < i2
    ensures CalcularTmb(peso, altura, i2, sexo) < CalcularTmb(peso, altura, i1, sexo)
  {
  }

  /** A worked value: 70 kg, 170 cm, 30 years, male. */
  lemma TmbExemploMasculino()
    ensures CalcularTmb(70.0, 170.0, 30, Masculino) == 1671.36
  {
  }

  /** A worked value: 60 kg, 165 cm, 25 years, female. */
  lemma TmbExemploFeminino()
    ensures CalcularTmb(60.0, 165.0, 25, "Feminino") == 1403.6
  {
  }

  // ---------------------------------------------------------------------------
  // Daily calories

  /** The `KeyError` a dictionary lookup raises, with the missing key. */
  datatype Erro = KeyError(chave: string)

  datatype Result<T> = Ok(value: T) | Err(error: Erro)

  /** The keys of fatores_atividade, in the order the dictionary lists them. */
  const NiveisAtividade: seq<string> := [
    "Sedent\U{E1}rio \U{1F6CB}\U{FE0F}",
    "Levemente ativo \U{1F6B6}",
    "Moderadamente ativo \U{1F3C3}",
    "Muito ativo \U{1F3CB}\U{FE0F}",
    "Extremamente ativo \U{1F3CA}\U{200D}\U{2642}\U{FE0F}"
  ]

  const FatoresAtividade: map<string, real> := map[
    NiveisAtividade[0] := 1.2,
    NiveisAtividade[1] := 1.375,
    NiveisAtividade[2] := 1.55,
    NiveisAtividade[3] := 1.725,
    NiveisAtividade[4] := 1.9
  ]

  /** The keys of ajustes_objetivo, in the order the dictionary lists them. */
  const Objetivos: seq<string> := [
    "Emagrecimento \U{1F4C9}",
    "Ganho de Massa \U{1F4AA}",
    "Manuten\U{E7}\U{E3}o \U{2696}\U{FE0F}",
    "Performance \U{1F3AF}"
  ]

  /** The goal adjustments are Python ints added to a float. */
  const AjustesObjetivo: map<string, int> := map[
    Objetivos[0] := -500,
    Objetivos[1] := 500,
    Objetivos[2] := 0,
    Objetivos[3] := 300
  ]

  /** calcular_calorias_diarias: the rate scaled by the activity factor plus
      the goal adjustment. The activity level is looked up first, so when both
      keys are unknown the error names the level. */
  function CalcularCaloriasDiarias(tmb: real, nivelAtividade: string, objetivo: string): (r: Result<real>)
    ensures r.Ok? <==> nivelAtividade in FatoresAtividade && objetivo in AjustesObjetivo
    ensures nivelAtividade !in FatoresAtividade ==> r == Err(KeyError(nivelAtividade))
    ensures nivelAtividade in FatoresAtividade && objetivo !in AjustesObjetivo ==>
              r == Err(KeyError(objetivo))
    ensures r.Ok? ==>
              r.value == tmb * FatoresAtividade[nivelAtividade] + AjustesObjetivo[objetivo] as real
  {
    if nivelAtividade !in FatoresAtividade then Err(KeyError(nivelAtividade))
    else
      var caloriasBase := tmb * FatoresAtividade[nivelAtividade];
      if objetivo !in AjustesObjetivo then Err(KeyError(objetivo))
      else Ok(caloriasBase + AjustesObjetivo[objetivo] as real)
  }

  /** The lookup tables hold exactly the listed keys, and the activity factors
      strictly increase from the sedentary level to the extremely active one. */
  lemma FatoresCrescentes()
    ensures |NiveisAtividade| == 5 && FatoresAtividade.Keys == set k | k in NiveisAtividade
    ensures forall i, j :: 0 <= i < j < |NiveisAtividade| ==>
              FatoresAtividade[NiveisAtividade[i]] < FatoresAtividade[NiveisAtividade[j]]
    ensures FatoresAtividade[NiveisAtividade[0]] == 1.2
    ensures FatoresAtividade[NiveisAtividade[1]] == 1.375
    ensures FatoresAtividade[NiveisAtividade[2]] == 1.55
    ensures FatoresAtividade[NiveisAtividade[3]] == 1.725
    ensures FatoresAtividade[NiveisAtividade[4]] == 1.9
  {
  }

  /** The four goals adjust by exactly -500, +500, 0 and +300 kcal. */
  lemma AjustesExatos()
    ensures |Objetivos| == 4 && AjustesObjetivo.Keys == set k | k in Objetivos
    ensures AjustesObjetivo[Objetivos[0]] == -500
    ensures AjustesObjetivo[Objetivos[1]] == 500
    ensures AjustesObjetivo[Objetivos[2]] == 0
    ensures AjustesObjetivo[Objetivos[3]] == 300
  {
  }

  /** With known keys, more basal energy always means more daily calories. */
  lemma CaloriasCrescemComTmb(t1: real, t2: real, nivelAtividade: string, objetivo: string)
    requires t1 < t2
    requires nivelAtividade in FatoresAtividade && objetivo in AjustesObjetivo
    ensures CalcularCaloriasDiarias(t1, nivelAtividade, objetivo).value
            < CalcularCaloriasDiarias(t2, nivelAtividade, objetivo).value
  {
  }

  /** Each goal differs from maintenance by exactly its adjustment. */
  lemma CaloriasRelativasAManutencao(tmb: real, nivelAtividade: string, objetivo: string)
    requires nivelAtividade in FatoresAtividade && objetivo in AjustesObjetivo
    ensures CalcularCaloriasDiarias(tmb, nivelAtividade, objetivo).value
            == CalcularCaloriasDiarias(tmb, nivelAtividade, Objetivos[2]).value
               + AjustesObjetivo[objetivo] as real
  {
  }

  /** The option strings offered by the profile form carry no emoji, so none of
      them is a key: every such level raises, and so does every such goal. */
  lemma OpcoesDoFormularioFalham(tmb: real)
    ensures forall n | n in ["Sedent\U{E1}rio", "Levemente ativo", "Moderadamente ativo",
                             "Muito ativo", "Extremamente ativo"] ::
              CalcularCaloriasDiarias(tmb, n, Objetivos[2]) == Err(KeyError(n))
    ensures forall o | o in ["Emagrecimento", "Ganho de Massa Muscular", "Manuten\U{E7}\U{E3}o do Peso",
                             "Aumento de Performance Esportiva"] ::
              CalcularCaloriasDiarias(tmb, NiveisAtividade[0], o) == Err(KeyError(o))
  {
  }

  /** A worked value: the male example above, moderately active, losing weight. */
  lemma CaloriasExemplo()
    ensures CalcularCaloriasDiarias(CalcularTmb(70.0, 170.0, 30, Masculino), NiveisAtividade[2], Objetivos[0])
            == Ok(2090.608)
  {
  }
}
