/** FlipOutput: the harmonisation decision for one variant. */
module FlipOutputs {

  /** `flip` swaps reference and alternate, `compliment` complements both alleles,
      `nullBeta` withholds the effect size, `missingAf` records that no allele
      frequency was available, `isAmbiguous` says which counters the variant feeds. */
  datatype FlipOutput = FlipOutput(
    flip: bool,
    compliment: bool,
    nullBeta: bool,
    missingAf: bool,
    isAmbiguous: bool)

  /** FlipOutput.raw: the alleles as given, used to print an invalid variant. */
  const RAW := FlipOutput(false, false, false, false, false)
}
