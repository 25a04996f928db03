/** The day-by-day workout plan (utils.py, criar_plano_treino).

    The source reads today's date and calls `random`; here the weekday of the
    first day (0 = Monday .. 6 = Sunday, as `datetime.weekday()`) and the values
    the random calls return for each day are parameters. */
module PlanoTreino {
  import opened Projecao

  /** The seven names of dias_semana, Monday first. */
  datatype DiaDaSemana = Segunda | Terca | Quarta | Quinta | Sexta | Sabado | Domingo

  /** The intensities a record can carry. */
  datatype Intensidade = Leve | Moderada | Alta

  /** The strings the source stores for each weekday and intensity. */
  function NomeDia(d: DiaDaSemana): string
  {
    match d
    case Segunda => "Segunda"
    case Terca => "Ter\U{E7}a"
    case Quarta => "Quarta"
    case Quinta => "Quinta"
    case Sexta => "Sexta"
    case Sabado => "S\U{E1}bado"
    case Domingo => "Domingo"
  }

  function NomeIntensidade(i: Intensidade): string
  {
    match i
    case Leve => "Leve"
    case Moderada => "Moderada"
    case Alta => "Alta"
  }

  /** Distinct weekdays and intensities have distinct names, so the
      enumerations lose nothing of the strings, and the weekend test on the
      enumeration is the source's test on the names. */
  lemma NomesFieis(a: DiaDaSemana, b: DiaDaSemana, x: Intensidade, y: Intensidade)
    ensures NomeDia(a) == NomeDia(b) ==> a == b
    ensures NomeIntensidade(x) == NomeIntensidade(y) ==> x == y
    ensures a in FimDeSemana <==> NomeDia(a) in ["S\U{E1}bado", "Domingo"]
    ensures forall k :: 0 <= k < |DiasSemana| ==> NomeDia(DiasSemana[k]) == NomesDiasSemana[k]
    ensures |DiasSemana| == |NomesDiasSemana|
  {
  }

  /** dias_semana as the source writes it. */
  const NomesDiasSemana: seq<string> :=
    ["Segunda", "Ter\U{E7}a", "Quarta", "Quinta", "Sexta", "S\U{E1}bado", "Domingo"]

  /** dias_semana, indexed by `datetime.weekday()`. */
  const DiasSemana: seq<DiaDaSemana> := [Segunda, Terca, Quarta, Quinta, Sexta, Sabado, Domingo]
  /** The names the source tests for the light band. */
  const FimDeSemana: seq<DiaDaSemana> := [Sabado, Domingo]
  /** The list `random.choice` picks a weekday intensity from. */
  const IntensidadesSemana: seq<Intensidade> := [Moderada, Alta]
  /** The exercise used when the preference list is empty. */
  const ExercicioPadrao := "Caminhada \U{1F6B6}\U{200D}\U{2642}\U{FE0F}"

  /** What the random calls of one day return, one field per call site:
      `randint(30, 45)` of the weekend branch, `randint(45, 75)` and the
      position `random.choice` takes in IntensidadesSemana of the weekday
      branch, and the position it takes in the preferences. A field whose call
      the day does not make is simply not read. */
  datatype Sorteio = Sorteio(duracaoFimDeSemana: int, duracaoSemana: int, intensidade: nat, exercicio: nat)

  /** One day of the plan, with the keys of the source's dictionary. `dia` is
      the offset from today, standing for the formatted date, and
      `pesoProjetado` is the projection before rounding. */
  datatype Registro = Registro(
    dia: nat,
    diaSemana: DiaDaSemana,
    exercicio: string,
    intensidade: Intensidade,
    duracao: int,
    pesoProjetado: real)

  /** The weekday of day `dia` of a plan that starts on weekday `inicio`. */
  function DiaSemana(inicio: nat, dia: nat): DiaDaSemana
  {
    DiasSemana[(inicio + dia) % 7]
  }

  /** Every field is a value its own call can return: `randint` includes both
      ends, and `random.choice` picks a valid position (among the preferences
      only when there are any). */
  predicate SorteioPossivel(s: Sorteio, numPreferencias: nat)
  {
    && 30 <= s.duracaoFimDeSemana <= 45
    && 45 <= s.duracaoSemana <= 75
    && s.intensidade < |IntensidadesSemana|
    && (numPreferencias > 0 ==> s.exercicio < numPreferencias)
  }

  /** There is a possible draw for every day of the plan. */
  predicate SorteiosPossiveis(preferencias: seq<string>, duracaoPlano: int, sorteios: seq<Sorteio>)
  {
    duracaoPlano <= |sorteios| &&
    forall d: nat :: d < duracaoPlano ==> SorteioPossivel(sorteios[d], |preferencias|)
  }

  /** The calendar part of what the source promises of record `r`, the
      record of day `i`: its weekday; light and 30..45 minutes at the weekend,
      moderate or high and 45..75 minutes on other days. */
  predicate CalendarioConforme(r: Registro, i: nat, inicio: nat)
  {
    && r.dia == i
    && r.diaSemana == DiasSemana[(inicio + i) % 7]
    && (r.diaSemana in FimDeSemana ==> r.intensidade == Leve && 30 <= r.duracao <= 45)
    && (r.diaSemana !in FimDeSemana ==> r.intensidade in IntensidadesSemana && 45 <= r.duracao <= 75)
  }

  /** All the source promises of record `r`: the calendar part, an exercise
      among the preferences, or the default when there are none, and the
      unrounded projected weight of day `i`. */
  predicate RegistroConforme(r: Registro, i: nat, preferencias: seq<string>, objetivo: string,
                             pesoInicial: real, inicio: nat)
  {
    && CalendarioConforme(r, i, inicio)
    && (if |preferencias| > 0 then r.exercicio in preferencias else r.exercicio == ExercicioPadrao)
    && r.pesoProjetado == CalcularPesoProjetado(pesoInicial, objetivo, i)
  }

  /** The record one iteration of the loop appends for day `dia`: it keeps
      the promised bands, and it is light exactly on weekday indices 5 and 6. */
  function RegistroDia(preferencias: seq<string>, objetivo: string, pesoInicial: real,
                       inicio: nat, dia: nat, s: Sorteio): (r: Registro)
    requires SorteioPossivel(s, |preferencias|)
    ensures RegistroConforme(r, dia, preferencias, objetivo, pesoInicial, inicio)
    ensures r.intensidade == Leve <==> (inicio + dia) % 7 >= 5
  {
    var diaSemana := DiaSemana(inicio, dia);
    FimDeSemanaSeSabadoOuDomingo(inicio, dia);
    Registro(
      dia,
      diaSemana,
      if |preferencias| > 0 then preferencias[s.exercicio] else ExercicioPadrao,
      if diaSemana in FimDeSemana then Leve else IntensidadesSemana[s.intensidade],
      if diaSemana in FimDeSemana then s.duracaoFimDeSemana else s.duracaoSemana,
      CalcularPesoProjetado(pesoInicial, objetivo, dia))
  }

  /** The plan of the first `n` days, one record per day in day order (none
      when `n` is not positive), each keeping the promised bands. */
  function Plano(preferencias: seq<string>, n: int, objetivo: string, pesoInicial: real,
                 inicio: nat, sorteios: seq<Sorteio>): (plano: seq<Registro>)
    requires SorteiosPossiveis(preferencias, n, sorteios)
    ensures |plano| == if n > 0 then n else 0
    ensures forall i :: 0 <= i < |plano| ==>
              RegistroConforme(plano[i], i, preferencias, objetivo, pesoInicial, inicio)
  {
    var dias := if n > 0 then n else 0;
    seq(dias, i requires 0 <= i < dias =>
      RegistroDia(preferencias, objetivo, pesoInicial, inicio, i, sorteios[i]))
  }

  /** criar_plano_treino: the loop appends the record of each day in turn.
      The result is exactly Plano, and every record keeps the promised bands.
      `limitacoes` is accepted and never read: Plano does not take it. */
  method CriarPlanoTreino(preferencias: seq<string>, duracaoPlano: int, objetivo: string,
                          limitacoes: string, pesoInicial: real,
                          inicio: nat, sorteios: seq<Sorteio>) returns (plano: seq<Registro>)
    requires inicio < 7
    requires SorteiosPossiveis(preferencias, duracaoPlano, sorteios)
    ensures plano == Plano(preferencias, duracaoPlano, objetivo, pesoInicial, inicio, sorteios)
    ensures |plano| == if duracaoPlano > 0 then duracaoPlano else 0
    ensures forall i :: 0 <= i < |plano| ==>
              RegistroConforme(plano[i], i, preferencias, objetivo, pesoInicial, inicio)
  {
    plano := [];
    var dia := 0;
    while dia < duracaoPlano
      invariant 0 <= dia && (dia <= duracaoPlano || dia == 0)
      invariant |plano| == dia
      invariant forall i :: 0 <= i < dia ==>
                  plano[i] == RegistroDia(preferencias, objetivo, pesoInicial, inicio, i, sorteios[i])
    {
      var diaSemana := DiasSemana[(inicio + dia) % 7];
      var intensidade, duracao;
      if diaSemana in FimDeSemana {
        intensidade := Leve;
        duracao := sorteios[dia].duracaoFimDeSemana;
      } else {
        intensidade := IntensidadesSemana[sorteios[dia].intensidade];
        duracao := sorteios[dia].duracaoSemana;
      }
      var exercicio := if |preferencias| > 0 then preferencias[sorteios[dia].exercicio] else ExercicioPadrao;
      var pesoProjetado := CalcularPesoProjetado(pesoInicial, objetivo, dia);
      plano := plano + [Registro(dia, diaSemana, exercicio, intensidade, duracao, pesoProjetado)];
      dia := dia + 1;
    }
  }

  /** The weekend is exactly weekday indices 5 and 6. */
  lemma FimDeSemanaSeSabadoOuDomingo(inicio: nat, dia: nat)
    ensures DiaSemana(inicio, dia) in FimDeSemana <==> (inicio + dia) % 7 >= 5
  {
  }

  /** A shorter plan built from the same draws is a prefix of a longer one. */
  lemma PlanoPrefixo(preferencias: seq<string>, m: int, n: int, objetivo: string,
                      pesoInicial: real, inicio: nat, sorteios: seq<Sorteio>)
    requires SorteiosPossiveis(preferencias, n, sorteios)
    requires 0 <= m <= n
    ensures SorteiosPossiveis(preferencias, m, sorteios)
    ensures |Plano(preferencias, n, objetivo, pesoInicial, inicio, sorteios)| == n
    ensures Plano(preferencias, m, objetivo, pesoInicial, inicio, sorteios)
            == Plano(preferencias, n, objetivo, pesoInicial, inicio, sorteios)[..m]
  {
  }

  /** 1 for a light record, 0 otherwise. */
  function Leves(r: Registro): nat
  {
    if r.intensidade == Leve then 1 else 0
  }

  /** The number of light records among plano[i..j]. */
  function LevesEntre(plano: seq<Registro>, i: nat, j: nat): nat
    requires i <= j <= |plano|
    decreases j - i
  {
    if i == j then 0 else Leves(plano[i]) + LevesEntre(plano, i + 1, j)
  }

  /** 1 when weekday index `k` is Saturday or Sunday. */
  function FimDeSemanaIndice(k: nat): nat
  {
    if k % 7 >= 5 then 1 else 0
  }

  /** Seven consecutive weekday indices meet the weekend exactly twice. */
  lemma {:induction false} DoisFinsDeSemanaPorSemana(k: nat)
    ensures FimDeSemanaIndice(k) + FimDeSemanaIndice(k + 1) + FimDeSemanaIndice(k + 2)
            + FimDeSemanaIndice(k + 3) + FimDeSemanaIndice(k + 4) + FimDeSemanaIndice(k + 5)
            + FimDeSemanaIndice(k + 6) == 2
  {
    if k > 0 {
      DoisFinsDeSemanaPorSemana(k - 1);
      assert (k - 1 + 7) % 7 == (k - 1) % 7;
    }
  }

  /** Counting a window of seven records is adding up their seven indicators. */
  lemma LevesEmSete(plano: seq<Registro>, i: nat)
    requires i + 7 <= |plano|
    ensures LevesEntre(plano, i, i + 7)
            == Leves(plano[i]) + Leves(plano[i + 1]) + Leves(plano[i + 2]) + Leves(plano[i + 3])
               + Leves(plano[i + 4]) + Leves(plano[i + 5]) + Leves(plano[i + 6])
  {
    assert LevesEntre(plano, i + 6, i + 7) == Leves(plano[i + 6]);
    assert LevesEntre(plano, i + 4, i + 7) == Leves(plano[i + 4]) + Leves(plano[i + 5]) + Leves(plano[i + 6]);
    assert LevesEntre(plano, i + 2, i + 7)
           == Leves(plano[i + 2]) + Leves(plano[i + 3]) + LevesEntre(plano, i + 4, i + 7);
  }

  /** A record that keeps its calendar promises is light exactly when its
      weekday index `k` is a weekend one. */
  lemma LeveNoFimDeSemana(r: Registro, d: nat, inicio: nat, k: nat)
    requires CalendarioConforme(r, d, inicio)
    requires k == inicio + d
    ensures Leves(r) == FimDeSemanaIndice(k)
  {
    FimDeSemanaSeSabadoOuDomingo(inicio, d);
  }

  /** Whatever the starting weekday, every seven consecutive days of a plan
      whose records keep their calendar promises (as CriarPlanoTreino's do)
      hold exactly two light days. */
  lemma SemanaComDoisDiasLeves(plano: seq<Registro>, inicio: nat, i: nat)
    requires forall d :: 0 <= d < |plano| ==> CalendarioConforme(plano[d], d, inicio)
    requires i + 7 <= |plano|
    ensures LevesEntre(plano, i, i + 7) == 2
  {
    var k := inicio + i;
    LevesEmSete(plano, i);
    LeveNoFimDeSemana(plano[i], i, inicio, k);
    LeveNoFimDeSemana(plano[i + 1], i + 1, inicio, k + 1);
    LeveNoFimDeSemana(plano[i + 2], i + 2, inicio, k + 2);
    LeveNoFimDeSemana(plano[i + 3], i + 3, inicio, k + 3);
    LeveNoFimDeSemana(plano[i + 4], i + 4, inicio, k + 4);
    LeveNoFimDeSemana(plano[i + 5], i + 5, inicio, k + 5);
    LeveNoFimDeSemana(plano[i + 6], i + 6, inicio, k + 6);
    DoisFinsDeSemanaPorSemana(k);
  }
}
