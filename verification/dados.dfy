/**
 * The records shared by the agents: the asset analysis (`AnaliseAtivo`) and the
 * investor profile (`PerfilUsuario`), with the string-valued enumerations of the
 * source turned into datatypes holding their documented values.
 */
module Dados {

  /** Risk tier of an asset: "baixo", "medio" or "alto". */
  datatype Risco = Baixo | Medio | Alto

  /** Position of a tier in the order baixo < medio < alto. */
  function Grau(r: Risco): nat
  {
    match r
    case Baixo => 0
    case Medio => 1
    case Alto => 2
  }

  /**
   * The advisory returned beside a normalised dividend yield: none (the empty
   * string), the "negative or invalid" notice, or the "above 30%" banner.
   */
  datatype AlertaDy = SemAlerta | DyInvalido | DyAcimaDoTeto

  datatype Tolerancia = Conservador | Moderado | Agressivo
  datatype Horizonte = PrazoCurto | PrazoMedio | PrazoLongo
  datatype Objetivo = RendaPassiva | Crescimento | Preservacao
  datatype Experiencia = Iniciante | Intermediario | Avancado

  /** The investor profile; `setoresPreferidos` is a list, so it may repeat a sector. */
  datatype PerfilUsuario = PerfilUsuario(
    nome: string,
    email: string,
    tolerancia: Tolerancia,
    horizonte: Horizonte,
    objetivo: Objetivo,
    experiencia: Experiencia,
    valorDisponivel: real,
    setoresPreferidos: seq<string>)

  /**
   * The analysis record of one asset. Only `score` is ever changed after
   * construction (by the recommendation step), so every other field is `const`.
   */
  class AnaliseAtivo {
    const ticker: string
    const nomeEmpresa: string
    const precoAtual: real
    const dy: real
    const pl: real
    const pvp: real
    const roe: real
    var score: real
    const scoreBruto: real
    const superInvestimento: bool
    const alertaDy: AlertaDy
    const freeCashFlow: real
    const payoutRatio: real
    const debtEquity: real
    const margemLiquida: real
    const crescimentoDividendos: real
    const setor: string
    const riscoNivel: Risco

    /** The dataclass constructor: every field as given. */
    constructor (ticker: string, nomeEmpresa: string, precoAtual: real, dy: real, pl: real,
                 pvp: real, roe: real, score: real, scoreBruto: real, superInvestimento: bool,
                 alertaDy: AlertaDy, freeCashFlow: real, payoutRatio: real, debtEquity: real,
                 margemLiquida: real, crescimentoDividendos: real, setor: string, riscoNivel: Risco)
      ensures this.ticker == ticker && this.nomeEmpresa == nomeEmpresa
      ensures this.precoAtual == precoAtual && this.dy == dy && this.pl == pl
      ensures this.pvp == pvp && this.roe == roe && this.score == score
      ensures this.scoreBruto == scoreBruto && this.superInvestimento == superInvestimento
      ensures this.alertaDy == alertaDy && this.freeCashFlow == freeCashFlow
      ensures this.payoutRatio == payoutRatio && this.debtEquity == debtEquity
      ensures this.margemLiquida == margemLiquida
      ensures this.crescimentoDividendos == crescimentoDividendos
      ensures this.setor == setor && this.riscoNivel == riscoNivel
    {
      this.ticker := ticker;
      this.nomeEmpresa := nomeEmpresa;
      this.precoAtual := precoAtual;
      this.dy := dy;
      this.pl := pl;
      this.pvp := pvp;
      this.roe := roe;
      this.score := score;
      this.scoreBruto := scoreBruto;
      this.superInvestimento := superInvestimento;
      this.alertaDy := alertaDy;
      this.freeCashFlow := freeCashFlow;
      this.payoutRatio := payoutRatio;
      this.debtEquity := debtEquity;
      this.margemLiquida := margemLiquida;
      this.crescimentoDividendos := crescimentoDividendos;
      this.setor := setor;
      this.riscoNivel := riscoNivel;
    }
  }
}
