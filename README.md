# Fit-IA plan generation, modelled in Dafny

This project models the plan-generation code of the Fit-IA wellness coach
(`utils.py`). That code has four parts:

- `calcular_tmb` gives the basal metabolic rate. It uses the Harris-Benedict
  equation with rounded coefficients, picked by the sex string.
- `calcular_calorias_diarias` multiplies that rate by an activity factor and
  adds a goal adjustment. Both values come from fixed dictionaries, and an
  unknown key raises `KeyError`.
- `calcular_peso_projetado` gives a linear weight projection. The trend is
  picked by a substring test on the goal.
- `criar_plano_treino` is a loop that appends one dictionary per day. Each
  record has the weekday, the exercise, the intensity, the duration and the
  projected weight.

Numbers are Dafny `real`s. The source's decimal constants (1.375, 88.36, ...)
are therefore exact, not binary floats. Dictionary keys are the source's own
strings, emoji included, written with `\U{...}` escapes.

Files and modules:

- `texto.dfy` (`Texto`): Python's `sub in s` on strings (`Contem`), and its
  equivalence with "occurs at some position".
- `metabolismo.dfy` (`Metabolismo`): `CalcularTmb`, the two lookup tables, and
  `CalcularCaloriasDiarias` with its `KeyError` path as a `Result`.
- `projecao.dfy` (`Projecao`): `CalcularPesoProjetado`, its three trends, and
  how the goal strings classify.
- `plano.dfy` (`PlanoTreino`): `CriarPlanoTreino` as a method with a `while`
  loop. It is proved equal to the specification function `Plano`, and every
  record is proved to keep the promised bands.

Ambient inputs become parameters:

- The source calls `datetime.today()` on every iteration. The model reads it
  once, as `inicio`, the weekday index of day 0 (Monday = 0, as `weekday()`),
  so it takes the date to stay the same while the loop runs. Each record
  keeps its day offset `dia` in place of the formatted date string.
- Each day's `random.randint` / `random.choice` results become one `Sorteio`,
  with one field per call site: the minutes of `randint(30, 45)`, the minutes
  of `randint(45, 75)`, the position in `['Moderada', 'Alta']`, and the
  position in `preferencias`. The precondition `SorteiosPossiveis` says each
  field is a value its own call can return. The weekend branch reads only the
  first field and the weekday branch only the second and third.

Weekday names and intensities are enumerations. `NomeDia` and
`NomeIntensidade` give the source's strings back, and the lemma `NomesFieis`
proves the mapping is injective and that the weekend test agrees with the
source's test on the names.

What the code does, where a reader might expect otherwise:

- The coefficients are rounded: 88.36 / 13.4 / 4.8 / 5.7 (male) and
  447.6 / 9.2 / 3.1 / 4.3 (female). The revised Harris-Benedict equation
  (Roza and Shizgal, 1984) has 88.362 / 13.397 / 4.799 / 5.677 and
  447.593 / 9.247 / 3.098 / 4.330.
- No sex string is rejected: every string other than `'Masculino'` gets the
  female equation.
- No empty-plan error: `range(duracao_plano)` gives an empty list for any
  duration ≤ 0.
- No macronutrient split: no function of the code computes macronutrients,
  and the `GOALS` split in `config.py` is never read by `utils.py`.
- Projections are rounded only when a plan record stores them.

An observation from the proofs: the profile form in `components.py` offers
activity levels and goals without the emoji suffixes. `OpcoesDoFormularioFalham`
shows that every such option makes `calcular_calorias_diarias` raise
`KeyError`. The substring test in `calcular_peso_projetado` still classifies the
form's goals as intended (`TendenciaFormulario*`).

## Model

| member | source | states |
|---|---|---|
| `Texto.Contem` | utils.py:47-50 | Python's `sub in s`: false when `sub` is longer than `s`, true for the empty `sub` |
| `Texto.ContemSeOcorre` | utils.py:47-50 | `sub in s` holds exactly when `sub` occurs at some position of `s` (both directions) |
| `Texto.NaoContemSemInicio` | utils.py:47-50 | a non-empty `sub` whose first character starts no possible match is not in `s` |
| `Texto.ContemPrefixo` | utils.py:47-50 | a string that begins with `sub` contains it |
| `Metabolismo.TmbDemaisValoresSaoFemininos` | utils.py:18-22 | every sex string other than "Masculino" gives the same rate as "Feminino" |
| `Metabolismo.TmbCresceComPeso` | utils.py:21-22 | for a fixed sex, the rate strictly increases with weight |
| `Metabolismo.TmbCresceComAltura` | utils.py:21-22 | for a fixed sex, the rate strictly increases with height |
| `Metabolismo.TmbDecresceComIdade` | utils.py:21-22 | for a fixed sex, the rate strictly decreases with age |
| `Metabolismo.TmbExemploMasculino` | utils.py:20-21 | 70 kg, 170 cm, 30 years, male gives 1671.36 kcal |
| `Metabolismo.TmbExemploFeminino` | utils.py:22 | 60 kg, 165 cm, 25 years, female gives 1403.6 kcal |
| `Metabolismo.CalcularCaloriasDiarias` | utils.py:24-43 | defined exactly when both keys are in the tables; an unknown level raises `KeyError(level)` before the goal is looked up; an unknown goal raises `KeyError(goal)`; otherwise the result is rate × factor + adjustment |
| `Metabolismo.FatoresCrescentes` | utils.py:26-32 | the five levels are exactly the table's keys, and their factors are 1.2, 1.375, 1.55, 1.725 and 1.9 in the listed order, strictly increasing |
| `Metabolismo.AjustesExatos` | utils.py:36-41 | the four goals are exactly the table's keys, with adjustments −500, +500, 0, +300 |
| `Metabolismo.CaloriasCrescemComTmb` | utils.py:34-43 | with known keys, a larger rate gives strictly more calories |
| `Metabolismo.CaloriasRelativasAManutencao` | utils.py:36-43 | each goal's calories differ from maintenance by exactly its adjustment |
| `Metabolismo.OpcoesDoFormularioFalham` | components.py:104-108 | every level and goal option of the profile form, which lack the emoji, raises `KeyError` |
| `Metabolismo.CaloriasExemplo` | utils.py:21-43 | the example above, moderately active, losing weight, gives 2090.608 kcal |
| `Projecao.TendenciaDe` | utils.py:47-55 | loss exactly when the goal contains "Emagrecimento"; gain exactly when it does not but contains "Ganho de Massa"; stable exactly when it contains neither |
| `Projecao.CalcularPesoProjetado` | utils.py:45-55 | the projection is the initial weight plus the goal's weekly rate (−0.5, +0.25 or 0 kg) times `dia / 7` |
| `Projecao.PesoNoDiaZero` | utils.py:45-55 | at day 0 the projection is the initial weight, for every goal |
| `Projecao.PesoNaoCresceAoEmagrecer` | utils.py:47-49 | a goal containing "Emagrecimento" gives a projection that never rises with the day |
| `Projecao.PesoNaoDecresceAoGanhar` | utils.py:50-52 | a goal containing "Ganho de Massa" and not "Emagrecimento" gives a projection that never falls |
| `Projecao.PesoConstanteNosDemais` | utils.py:53-55 | any other goal gives the initial weight on every day |
| `Projecao.UmaSemana` | utils.py:47-55 | seven more days move the projection by exactly the weekly rate |
| `Projecao.GanhoSemInicioE` | utils.py:47-52 | a goal with "Ganho de Massa" in which no "E" can start "Emagrecimento" projects a gain |
| `Projecao.EstavelSemInicios` | utils.py:47-55 | a goal in which neither "Emagrecimento" nor "Ganho de Massa" can start is stable |
| `Projecao.TendenciaEmagrecimento` | utils.py:37 | the key "Emagrecimento 📉" projects a loss |
| `Projecao.TendenciaGanhoDeMassa` | utils.py:38 | the key "Ganho de Massa 💪" projects a gain |
| `Projecao.TendenciaManutencao` | utils.py:39 | the key "Manutenção ⚖️" is stable |
| `Projecao.TendenciaPerformance` | utils.py:40 | the key "Performance 🎯" is stable |
| `Projecao.TendenciaFormularioEmagrecimento` | components.py:107-108 | the form option "Emagrecimento" projects a loss |
| `Projecao.TendenciaFormularioGanho` | components.py:107-108 | the form option "Ganho de Massa Muscular" projects a gain |
| `Projecao.TendenciaFormularioManutencao` | components.py:107-108 | the form option "Manutenção do Peso" is stable |
| `Projecao.TendenciaFormularioPerformance` | components.py:107-108 | the form option "Aumento de Performance Esportiva" is stable |
| `PlanoTreino.NomesFieis` | utils.py:66-76 | the weekday enumeration, indexed by `weekday()`, names exactly the list `dias_semana`; weekday and intensity names are distinct; and the weekend test on the enumeration agrees with `dia_semana in ['Sábado', 'Domingo']` |
| `PlanoTreino.CriarPlanoTreino` | utils.py:57-92 | the result is the plan `Plano` (which does not take `limitacoes`), with one record per day (none for a duration ≤ 0); each record has weekday `(inicio + i) mod 7`; weekend records are light and take the `randint(30, 45)` minutes, other days are moderate or high and take the `randint(45, 75)` minutes; the exercise is a preference, or "Caminhada 🚶‍♂️" when there are none; the weight is the unrounded projection of day `i` |
| `PlanoTreino.FimDeSemanaSeSabadoOuDomingo` | utils.py:66-72 | a day is at the weekend exactly when its weekday index is 5 or 6 |
| `PlanoTreino.RegistroDia` | utils.py:69-90 | one loop iteration's record keeps the bands above, the weekend branch giving 30..45 minutes and the weekday branch 45..75, and it is light exactly on weekday indices 5 and 6 |
| `PlanoTreino.Plano` | utils.py:65-92 | the plan has one record per day (none for a duration ≤ 0), and every record keeps the bands above |
| `PlanoTreino.PlanoPrefixo` | utils.py:68-90 | with the same draws, a shorter plan is a prefix of a longer one: no record depends on the duration |
| `PlanoTreino.DoisFinsDeSemanaPorSemana` | utils.py:66-72 | seven consecutive weekday indices include the weekend exactly twice |
| `PlanoTreino.LeveNoFimDeSemana` | utils.py:72-76 | a record that keeps its weekday and bands is light exactly on a weekend index |
| `PlanoTreino.SemanaComDoisDiasLeves` | utils.py:68-77 | whatever the starting weekday, every seven consecutive records of a plan whose records keep their weekday and bands (as every plan of `CriarPlanoTreino` does) hold exactly two light days |

## Left out

- `initialize_ai_model` (utils.py:10-16): a foreign language-model client plus an environment-variable write.
- `gerar_graficos_plano` (utils.py:94-140): plotly figure construction only.
- `components.py`, `app.py` and `config.py`: these are interface rendering, session state and YAML loading. `app.py` imports names that `utils.py` does not define. The `GOALS` macronutrient table is never read by a modelled function.
- The `data` field: `strftime('%d/%m/%Y')` on the calendar date is not modelled. A record keeps its day offset, and its weekday comes from the start weekday.
- PlanoTreino.CriarPlanoTreino: `peso_projetado` is stored as `round(value, 2)` in the source. The model stores the unrounded value, because Python's rounding works on the binary float, which `real` does not represent.
- PlanoTreino.CriarPlanoTreino: the source re-reads `datetime.today()` on every iteration; the model assumes the date does not change while the loop runs. A run that crosses midnight shifts every later record by one weekday in the source, which can break the two-light-days-per-week property of `SemanaComDoisDiasLeves`.
- PlanoTreino.CriarPlanoTreino: only the ranges of `random.randint` and `random.choice` are modelled, not their uniform distribution or the generator's state.
- Every number is exact. Python float rounding in the arithmetic of `calcular_tmb`, `calcular_calorias_diarias` and `calcular_peso_projetado` is not modelled.
