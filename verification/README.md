# Rendy AI decision engine in Dafny

This project models the deterministic decision engine of the Rendy AI
dividend-investing assistant (`rendy_ai_agentes.py`). The engine has these parts:

- **Dividend yield.** `validar_dy` normalises a dividend yield.
- **Finance agent.** `RendyFinanceAgent` builds the opportunity score and the
  risk tier of one asset. It also aggregates a portfolio from the asset records.
- **Invest agent.** `RendyInvestAgent` holds an investor profile. It filters and
  re-scores assets for that profile, overwriting `score` on the caller's objects.
  Then it ranks them and splits a capital among the best five.
- **XAI agent.** `RendyXAI` explains a score as factor tags and gives three
  dividend scenarios.
- **Auto agent.** `RendyAutoAgent` compares reinvested and collected dividends
  year by year. It also computes the monthly contribution for a target income.
- **Support agent.** `RendySupportAgent` answers an FAQ with a first-match
  keyword scan.
- **Compliance agent.** `RendyComplianceAgent` flags sector and single-asset
  concentration, a high-risk majority and an excessive average yield.
- **E-mail check.** `validar_email` is a hand-written recognizer for the e-mail
  regular expression.
- **Ranking pre-filter.** The ranking screen keeps one risk tier and a minimum
  yield.

Python floats are modelled as Dafny `real`, so the arithmetic is exact.
`AnaliseAtivo` is a class whose only mutable field is `score`, the one field the
engine changes in place. The string enumerations of the profile and of the risk
tier become datatypes. Formatted messages become tags: `AlertaDy`, `Fator`,
`Ressalva`, `Alerta` and `Recomendacao`.

Modules: `Wrappers` (Option), `Somas` (left-to-right sums), `Comum` (distinct sequences, ordering of real products), `Dados` (records),
`Validacao` (e-mail), `Finance`, `Ordenacao` (Python's stable `sorted(...,
reverse=True)` and slicing), `Invest`, `Filtro`, `Xai`, `Auto`, `Support` and
`Compliance`.

Facts about the code that a reader might not expect:

- The raw score can reach 11.5 (4 + 1.5 + 1.5 + 3 + 0.5 + 1).
- The risk classifier has no beta term.
- The explanation uses the cut-points 0.08/0.05 for DY, 0.20/0.15 for ROE and
  10/15 for P/L.
- There is no portfolio-level risk tier and no low-diversification warning.

## Model

| member | source | states |
|---|---|---|
| `Validacao.ValidarEmail` | rendy_ai_agentes.py:107-108 | an accepted address has at least six characters, an '@' and a '.'; that it accepts exactly what the pattern matches is `Validacao.ValidarEmailCorreto` |
| `Validacao.ValidarEmailCorreto` | rendy_ai_agentes.py:107-108 | the recognizer accepts a string exactly when the pattern `^[\w.-]+@[\w.-]+\.\w{2,}$` matches it under `re.match`, for any word-character class without '@', '.' or newline |
| `Validacao.UmaQuebraFinal` | rendy_ai_agentes.py:108 | `$` lets one trailing newline through: appending it does not change the verdict |
| `Validacao.DuasQuebrasFinais` | rendy_ai_agentes.py:108 | two trailing newlines are always rejected |
| `Validacao.EmailSemPonto` | rendy_ai_agentes.py:108 | any string in which no '.' comes after an '@' (one with no '@' included) is rejected by the recognizer for every `w`, and by the pattern for every word-character class without '@', '.' or newline |
| `Validacao.EmailSemPontoExemplo` | rendy_ai_agentes.py:108 | example: "ana@rendy" is rejected when `\w` is the lower-case letters |
| `Validacao.FormaUnica` | rendy_ai_agentes.py:108 | splitting at the first '@' and the last '.' recovers the three groups of any match |
| `Finance.ValidarDy` | rendy_ai_agentes.py:110-124 | result in [0, 0.3]; "invalid" alert iff missing or negative; "above 30%" alert iff the rescaled value exceeds 0.3, and then the result is 0.3; with the "invalid" alert the result is 0; a value already in [0, 0.3] comes back unchanged with no alert |
| `Finance.ValidarDyIdempotente` | rendy_ai_agentes.py:110-124 | normalising an already normalised yield returns it unchanged with no alert |
| `Finance.ScoreDy` | rendy_ai_agentes.py:165 | yield term in [0, 4]; 4 from 8% up; 0 iff the yield is not positive |
| `Finance.ScorePl` | rendy_ai_agentes.py:166 | P/L term in [0, 1.5]; 1.5 for 0 < P/L ≤ 15; 0 iff P/L ≤ 0 |
| `Finance.ScorePvp` | rendy_ai_agentes.py:167 | P/VP term in [0, 1.5]; 1.5 for 0 < P/VP ≤ 2; 0 iff P/VP ≤ 0 |
| `Finance.ScoreRoe` | rendy_ai_agentes.py:168 | ROE term in [0, 3]; 3 from 20% up; 0 iff ROE ≤ 0 |
| `Finance.ScoreFcf` | rendy_ai_agentes.py:171 | cash-flow term in [0, 0.5]; 0.5 from 1e9 up; 0 iff the cash flow is not positive |
| `Finance.ScorePayout` | rendy_ai_agentes.py:172 | payout term is 1 iff the ratio is in [0.3, 0.6], 0.5 iff positive outside that band, 0 iff not positive |
| `Finance.Score` | rendy_ai_agentes.py:165-176 | raw score in [0, 11.5]; shown score in [0, 10] and never above the raw score; equal to it when raw ≤ 10 and exactly 10 when raw > 10; "super investimento" iff raw > 10, iff the cap hides part of the raw score |
| `Finance.ScoreExemplo` | rendy_ai_agentes.py:165-176 | dy 0.10, P/L 10, P/VP 0.8, ROE 0.18, FCF 2e9, payout 0.45 give raw 11.2, score 10, super |
| `Finance.ScoreMonotonoDy` | rendy_ai_agentes.py:165-176 | a higher yield never lowers the raw or the shown score |
| `Finance.ScoreMonotonoRoe` | rendy_ai_agentes.py:165-176 | a higher ROE never lowers the raw or the shown score |
| `Finance.ScoreAntitonoPl` | rendy_ai_agentes.py:166 | among positive P/L values a cheaper asset never has a lower raw score |
| `Finance.PontosRisco` | rendy_ai_agentes.py:226-239 | at most 5 points; 5 iff D/E > 1, P/L > 25 and DY > 0.12; 0 iff D/E ≤ 0.5, P/L ≤ 15 and DY ≤ 0.12 |
| `Finance.ClassificarRisco` | rendy_ai_agentes.py:224-246 | "alto" iff at least 4 points, "baixo" iff fewer than 2; "alto" needs D/E > 0.5 and P/L > 15 |
| `Finance.RiscoMonotonoDebtEquity` | rendy_ai_agentes.py:228-231 | the tier never decreases as D/E grows |
| `Finance.RiscoMonotonoPl` | rendy_ai_agentes.py:233-236 | the tier never decreases as P/L grows |
| `Finance.RiscoMonotonoDy` | rendy_ai_agentes.py:238-239 | the tier never decreases as DY grows |
| `Finance.RiscoExemplo` | rendy_ai_agentes.py:224-246 | D/E 1.5 with P/L 30 is "alto" for any yield |
| `Finance.AnalisarAtivo` | rendy_ai_agentes.py:146-204 | the record holds the normalised yield and its alert, the score triple of the fields, the tier of (D/E, P/L, normalised DY), the growth estimate only when DY > 0, and the sector and name defaults |
| `Finance.AnaliseFalha` | rendy_ai_agentes.py:209-222 | the fallback record: ticker as name; price, DY, P/L, P/VP, ROE, score, raw score, free cash flow, payout, D/E, net margin and dividend growth all zero; no DY alert, not super, empty sector, tier "medio" |
| `Finance.ValorInvestido` | rendy_ai_agentes.py:257-258 | floor(valor/preço)·preço lies in (valor − preço, valor], and is non-negative for valor ≥ 0 |
| `Finance.Item` | rendy_ai_agentes.py:256-269 | one line: invested = shares·price within one price of the allocation; income = invested·DY; weight = allocation / total when the total is positive, 0 otherwise |
| `Finance.Itens` | rendy_ai_agentes.py:254-269 | never more lines than pairs; every line's asset is from the input and has a positive price |
| `Finance.Positivos` | rendy_ai_agentes.py:255 | the positions of the assets with a positive price, strictly increasing, each position with a positive price listed |
| `Finance.ItensPorIndice` | rendy_ai_agentes.py:254-269 | the lines are exactly the `Item` of each pair whose asset has a positive price, in input order: as many lines as such positions, the k-th line from the k-th position |
| `Finance.DiversificacaoLimitada` | rendy_ai_agentes.py:276 | the distinct-sector count never exceeds the number of lines |
| `Finance.AnalisarCarteira` | rendy_ai_agentes.py:248-277 | `valor_total` is the sum of every value; the lines come from the zipped pairs with price > 0; total income is the sum of the line incomes; yield is income/total, or 0 when total ≤ 0; diversification is the number of distinct sectors, at most the number of lines |
| `Finance.CarteiraVazia` | rendy_ai_agentes.py:248-277 | an empty portfolio has no lines, zero income and no sectors |
| `Finance.ItemExemplo` | rendy_ai_agentes.py:256-259 | 1000 at price 50 with DY 6% buys 20 shares, invests 1000 and earns 60 a year |
| `Ordenacao.OrdenarDesc` | rendy_ai_agentes.py:305 | the sort returns a permutation of its input with non-increasing keys |
| `Ordenacao.OrdenarDescEstavel` | rendy_ai_agentes.py:305 | the sort is stable: for each key, items with that key keep their input order |
| `Ordenacao.Prefixo` | rendy_ai_agentes.py:305 | `[:limite]` is a prefix of length min(limite, n), or n + limite clipped at 0 for a negative bound |
| `Ordenacao.PrefixoDecrescente` | rendy_ai_agentes.py:305 | truncation keeps the order non-increasing |
| `Invest.AtivoCompativelPerfil` | rendy_ai_agentes.py:307-321 | never "alto" for a conservative profile; "alto" for a moderate one only at score ≥ 7; with fewer than 3 preferred sectors, or a preferred sector, the risk rule alone decides; with 3 or more and another sector the asset is refused unless a moderate profile accepted an "alto" one |
| `Invest.AjustarScorePerfil` | rendy_ai_agentes.py:323-343 | result ≤ 10 and ≤ s + 0.8, and ≥ s − 0.5 when s ≤ 10.5; both ways: a rise only for one of the three bonus conditions, and below 10 one of them without the beginner "alto" penalty always raises the score; a drop only for a beginner with an "alto" asset, and that penalty with no objective bonus gives exactly s − 0.5 |
| `Invest.AjusteSemPiso` | rendy_ai_agentes.py:337-343 | there is no lower clamp: score 0 for a beginner with an "alto" asset becomes −0.5 |
| `Invest.Filtragem` | rendy_ai_agentes.py:296-303 | the filtering pass keeps every object's key in the score map and accepts at most as many items as it reads |
| `Invest.FiltragemAceitos` | rendy_ai_agentes.py:296-303 | every accepted asset comes from the input and was compatible with its score at the check, and ends at a score ≤ 10; an object never accepted keeps its score |
| `Invest.FiltragemDistintos` | rendy_ai_agentes.py:296-303 | with no object listed twice, an object is accepted iff compatible with its original score, and then holds the adjusted score, otherwise the original one |
| `Invest.AjusteAcumula` | rendy_ai_agentes.py:298-303 | two recommendations on the same object compound: an income bonus of 0.5 is applied twice |
| `Invest.Ranking` | rendy_ai_agentes.py:293 | the first min(limite, n) sorted items for `limite` ≥ 0, and the first max(n + limite, 0) for a negative `limite`, as Python slicing gives; in sorted order, with non-increasing keys, all from the input |
| `Invest.RankingPorScore` | rendy_ai_agentes.py:305 | the ranking read from the objects is ordered by their current scores and holds only input objects |
| `Invest.PesosBase` | rendy_ai_agentes.py:354-361 | n positive raw weights for the tolerance |
| `Invest.NormalizarPropriedades` | rendy_ai_agentes.py:363-365 | normalised weights are positive, sum to 1, and keep the order and the equalities of the raw weights |
| `Invest.Pesos` | rendy_ai_agentes.py:351-365 | n weights for the n best assets |
| `Invest.PesosNormalizados` | rendy_ai_agentes.py:351-365 | the weights are positive and sum to 1; they never increase with rank for conservador and moderado; they are all equal for agressivo |
| `Invest.MontantesSomamTotal` | rendy_ai_agentes.py:363-369 | for a non-negative total the amounts are non-negative and sum to the total |
| `Invest.Alocacao` | rendy_ai_agentes.py:367-369 | the dictionary's keys are the tickers of the assets written |
| `Invest.AlocacaoTamanho` | rendy_ai_agentes.py:367-369 | the dictionary has no more entries than assets |
| `Invest.AlocacaoDistintos` | rendy_ai_agentes.py:367-369 | with distinct tickers, each asset's ticker maps to its own amount |
| `Invest.SugestaoDistribuiTotal` | rendy_ai_agentes.py:345-371 | with distinct tickers and total ≥ 0: one entry per asset, each non-negative, summing to the total; non-increasing in rank for conservador/moderado, all equal for agressivo |
| `Invest.RendyInvestAgent.constructor` | rendy_ai_agentes.py:282-283 | a new agent has no profile |
| `Invest.RendyInvestAgent.DefinirPerfil` | rendy_ai_agentes.py:285-287 | the profile is the one given |
| `Invest.RendyInvestAgent.RecomendarAtivos` | rendy_ai_agentes.py:289-305 | without a profile, no score changes and the result is the stable ranking; with one, every score becomes the filtering pass's result and the accepted assets are ranked by the new score; at most `limite` items, non-increasing score, all from the input, and no "alto" asset for a conservative profile |
| `Invest.AjustarPorPerfil` | rendy_ai_agentes.py:296-303 | after the loop every analysis holds the score the filtering pass gives it, and the collected list is exactly the accepted analyses in input order |
| `Invest.Repartir` | rendy_ai_agentes.py:367-369 | the dictionary is the one built by writing `valorTotal * pesos[i]` under the `i`-th ticker in order, with no more entries than weights |
| `Invest.RendyInvestAgent.GerarSugestaoAlocacao` | rendy_ai_agentes.py:345-371 | `{}` without a profile or assets; otherwise the first min(n, 5) assets paired with the total times the normalised weights; never more than 5 entries |
| `Filtro.Filtradas` | rendy_ai_agentes.py:1007-1012 | only analyses of the chosen tier (any when none is chosen) with DY ≥ the minimum, never more than the input |
| `Filtro.FiltradasMembros` | rendy_ai_agentes.py:1007-1012 | an input analysis is kept iff it passes, and nothing else appears |
| `Filtro.FiltradasConcat` | rendy_ai_agentes.py:1007-1012 | filtering keeps the input order: it distributes over concatenation |
| `Filtro.FiltroNeutro` | rendy_ai_agentes.py:1008-1011 | with tier "todos" and a minimum no yield is below, nothing is dropped |
| `Filtro.FiltrarAnalises` | rendy_ai_agentes.py:1006-1012 | the loop computes the filtered list |
| `Xai.RecomendacaoPorScore` | rendy_ai_agentes.py:435-447 | "compra forte" iff score ≥ 8; "evitar" iff score < 4 |
| `Xai.RecomendacaoMonotona` | rendy_ai_agentes.py:435-447 | a higher score never gets a weaker recommendation |
| `Xai.ListaDy` | rendy_ai_agentes.py:388-399 | positive iff DY > 0.08, neutral iff 0.05 < DY ≤ 0.08 |
| `Xai.ListaRoe` | rendy_ai_agentes.py:401-412 | positive iff ROE > 0.20, neutral iff 0.15 < ROE ≤ 0.20 |
| `Xai.ListaPl` | rendy_ai_agentes.py:414-425 | absent iff P/L ≤ 0; positive iff 0 < P/L < 10; neutral iff 10 ≤ P/L ≤ 15; negative iff P/L > 15 |
| `Xai.ExplicacaoScoreDetalhada` | rendy_ai_agentes.py:376-449 | the explanation record; what its lists mean is stated by `Xai.ExplicacaoDy`, `Xai.ExplicacaoRoe`, `Xai.ExplicacaoPl`, `Xai.ExplicacaoContagem` and `Xai.ExplicacaoRiscos` |
| `Xai.ExplicacaoDy` | rendy_ai_agentes.py:388-399 | the yield tag is in the positive, neutral or negative list exactly per the 8%/5% cuts |
| `Xai.ExplicacaoRoe` | rendy_ai_agentes.py:401-412 | the ROE tag is in the list the 20%/15% cuts say |
| `Xai.ExplicacaoPl` | rendy_ai_agentes.py:414-425 | the P/L tag is in the list its range says, and no P/L tag appears when P/L ≤ 0 |
| `Xai.ExplicacaoContagem` | rendy_ai_agentes.py:387-425 | three factors in all when P/L > 0, otherwise two |
| `Xai.ExplicacaoRiscos` | rendy_ai_agentes.py:427-447 | each caveat appears iff its condition ("alto", D/E > 1, DY > 0.15) holds, at most three; the label bands are [8,∞), [6,8), [4,6) and below 4 |
| `Xai.CenarioCom` | rendy_ai_agentes.py:470-485 | one scenario: income = invested·DY and 12 × monthly = annual |
| `Xai.SimularCenarios` | rendy_ai_agentes.py:451-488 | no scenarios iff the price is not positive; otherwise DY ×0.8, ×1, ×1.2 applied to the whole-share investment, monthly = annual/12, and the three incomes are ordered for non-negative inputs |
| `Auto.SimularReinvestimento` | rendy_ai_agentes.py:493-524 | five lists of length max(anos, 0); year k+1 holds inicial·(1+dy)^(k+1) with reinvestment and inicial·(1+(k+1)·dy) without; the difference is their gap and is ≥ 0 for inicial ≥ 0 and dy ≥ 0 |
| `Auto.ReinvestimentoCompensa` | rendy_ai_agentes.py:503-522 | compounding never loses to collecting for non-negative capital and yield |
| `Auto.CalcularAporteMensalNecessario` | rendy_ai_agentes.py:526-538 | 0 when the yield is not positive; otherwise 60 contributions at that yield pay the target income; non-negative for a non-negative target |
| `Support.Palavras` | rendy_ai_agentes.py:571 | `split()` returns non-empty words with no whitespace; with `PalavraEntreEspacos` and `PalavraDelimitada`, the words are exactly the space-free pieces bounded by whitespace or the ends of the string |
| `Support.PalavraEntreEspacos` | rendy_ai_agentes.py:571 | a non-empty space-free piece with whitespace (or an end of the string) on each side is one of the words |
| `Support.PalavraDelimitada` | rendy_ai_agentes.py:571 | every word sits in the string at some index with whitespace (or an end of the string) on each side |
| `Support.Contida` | rendy_ai_agentes.py:571 | `p in t` holds iff `p` occurs in `t` at some index |
| `Support.PalavrasOcorrem` | rendy_ai_agentes.py:571 | every word of a string occurs in that string |
| `Support.PerguntaVaziaNaoResponde` | rendy_ai_agentes.py:571 | an empty query matches no FAQ question |
| `Support.PrimeiraEntradaCapturaO` | rendy_ai_agentes.py:545-571 | any query holding the letter 'o' is answered by the first entry, whose question has the word "o" |
| `Support.RendySupportAgent.constructor` | rendy_ai_agentes.py:543-564 | the agent holds the five FAQ entries in order |
| `Support.RendySupportAgent.ResponderPergunta` | rendy_ai_agentes.py:566-575 | the answer of the first entry with a word occurring in the query; the default text when no entry has one |
| `Compliance.Setores` | rendy_ai_agentes.py:614-618 | the sectors of the lines, each once, and no other |
| `Compliance.AlertasSetor` | rendy_ai_agentes.py:620-623 | a sector alert exists for each listed sector above 40%, and only for those, with its weight |
| `Compliance.AlertasAtivo` | rendy_ai_agentes.py:626-631 | an asset alert exists exactly for each line above 30%, with its ticker and weight |
| `Compliance.ContaAlto` | rendy_ai_agentes.py:634-635 | the high-risk count is at most the number of lines; `ContaAltoConta` pins it exactly |
| `Compliance.ContaAltoConta` | rendy_ai_agentes.py:634-635 | the count equals the number of positions whose line is classified "alto" |
| `Compliance.PesosSetoresSomam` | rendy_ai_agentes.py:614-618 | the sector weights add up to the sum of the line weights |
| `Compliance.AtivoConcentraSetor` | rendy_ai_agentes.py:620-631 | with non-negative weights a line above 40% makes its sector concentrated and alerted |
| `Compliance.SetorConcentrado` | rendy_ai_agentes.py:620-623 | some sector in dictionary order is above 40% iff some line's sector is |
| `Compliance.ContaAltoExtremos` | rendy_ai_agentes.py:633-638 | all lines "alto" gives the full count; no line "alto" gives 0 |
| `Compliance.DyMedioLimitado` | rendy_ai_agentes.py:640-644 | the mean yield is at most any bound that every yield meets |
| `Compliance.PesosPorSetor` | rendy_ai_agentes.py:613-618 | the first loop gives every sector's total weight, with sectors in first-appearance order |
| `Compliance.AlertarSetores` | rendy_ai_agentes.py:620-623 | the second loop raises the flag iff some sector exceeds 40% and lists those alerts in order |
| `Compliance.AlertarAtivos` | rendy_ai_agentes.py:625-631 | the third loop raises the flag iff some line exceeds 30% and lists those alerts in order |
| `Compliance.AvaliarRiscosCarteira` | rendy_ai_agentes.py:600-646 | nothing for an empty portfolio; otherwise each flag holds iff its condition holds (sector > 40%, line > 30%, high-risk count > half, mean DY > 15%) and the alerts come in the source's order |
| `Dados.AnaliseAtivo.constructor` | rendy_ai_agentes.py:75-97 | every field holds the value given |

## Left out

- Market data retrieval is left out. This covers the `yf.Ticker` calls (`.info`, `.history`), the last-close price fallback and the `cache_analises` memo in `analisar_ativo`. The extracted fields are inputs (`Finance.Info`), already defaulted to 0 as `or 0` does.
- `analisar_carteira` takes already-built analysis records instead of calling `analisar_ativo` per ticker.
- The random dividend-growth draw (`np.random.uniform(0.02, 0.15)`) is the input `crescimento`, which the model leaves unconstrained rather than in [0.02, 0.15). `gerar_dica_educacional` picks a tip at random and is not modelled.
- The Streamlit UI, session state, `st.cache_data`, `RendyOrchestrator`, charts and forms are not modelled. The ranking pre-filter is the only part of that code that is kept.
- File and OS I/O are not modelled: `inicializar_ambiente`, the JSON history writes, logging and the clock (`agora_brasilia`).
- The dataclass fields `historico` (a pandas price series) and `recomendacao` (a string no core code reads or writes) are not fields of `Dados.AnaliseAtivo`.
- `gerar_disclaimer` returns a fixed text and is not modelled.
- Float behaviour is not modelled: rounding, NaN passing through `validar_dy`, and `int()` of very large quotients. Arithmetic is exact over `real`.
- The `:.2f`/`:.1f` text of alerts and factors is not modelled. Each message is a tag carrying the same data.
- `str.lower()` is the parameter `lower`. The regex class `\w` is the parameter `w`. Only facts Python guarantees are assumed about `w`: it holds for none of '@', '.' and newline.
- Profile fields take only their documented values. Other strings in `tolerancia_risco`, `objetivo_principal` and `experiencia` are not modelled. An unknown tolerance would get the moderate weights in `gerar_sugestao_alocacao` and pass the risk rule.
- Finance.ValidarDy: `None` is modelled as `Option.None`. A non-numeric input raising a Python exception is not modelled.
- Invest.RendyInvestAgent.RecomendarAtivos: the per-call score overwrites are modelled by a value-level pass over a score map (`Filtragem`), not by reasoning about object aliasing directly. Its ensures covers only the conservative exclusion; the moderate "score ≥ 7" rule is stated by `Invest.FiltragemAceitos`.
