/** IntakeUtilities: the run's metadata and the two reference lookups, plus the numeric
    primitives the intake borrows from Python and its libraries. Those primitives are not
    modelled; each is a parameter of the model, so every result below holds whatever
    `float()`, `int()`, `math.log` and `norm.ppf` compute. */
module IntakeUtilities {
  import opened Wrappers
  import opened Dicts
  import opened GenomeReferences

  /** IntakeUtilities.metadata. The sample sizes are the `--cases`, `--controls` and
      `--subjects` integers, absent when not given. */
  datatype Metadata = Metadata(
    dichotomous: bool,
    ancestry: string,
    phenotype: string,
    columnMap: Dict<string>,
    dataset: string,
    cases: Option<int>,
    controls: Option<int>,
    subjects: Option<int>)

  /** The numeric primitives: `float(s)` and `int(s)` (`None` where Python raises
      ValueError), `math.log` (only called on positive arguments), `norm.ppf`,
      `np.nextafter(0, 1)`, the smallest positive double, and `npOverZero(x)`, what
      numpy's division of `x` by a zero `numpy.float64` gives (an infinity or NaN, with
      a warning instead of an exception). */
  datatype Numerics = Numerics(
    parseFloat: string -> Option<real>,
    parseInt: string -> Option<int>,
    log: real -> real,
    ppf: real -> real,
    tiny: real,
    npOverZero: real -> real)
  {
    predicate Valid() {
      tiny > 0.0
    }
  }

  /** A division whose divisor is a `numpy.float64` (a value `norm.ppf` returned, or one
      computed from it). Unlike Python's float division it never raises: a zero divisor
      gives `npOverZero`, and any other divisor the quotient. */
  function NpDivide(num: Numerics, x: real, y: real): (r: real)
    ensures y != 0.0 ==> r * y == x
  {
    if y == 0.0 then num.npOverZero(x) else x / y
  }

  /** IntakeUtilities: metadata, the GRCh37 sequences (FaFinder.fa_dict) and the
      allele-frequency table of the run's ancestry (G1000Reference.var_to_af). */
  datatype Utilities = Utilities(meta: Metadata, fa: FastaDict, g1000: AfTable)
}
