/** The run configuration of the genetic algorithm (config.py). Only the values the
    evolutionary engine reads are kept; the Gaussian sigmas are absent because every
    noise draw is passed to the model already scaled. */
module Config {
  /** IMAGE_SIZE = (128, 128): the canvas and target raster are Width x Height pixels. */
  const Width: nat := 128
  const Height: nat := 128

  /** Genes per chromosome; crossover needs at least three of them. */
  const NumGenes: nat := 50

  const PopulationSize: nat := 200
  const NumGenerations: nat := 1000

  /** Probability that a freshly produced child is mutated. */
  const MutationRate: real := 0.1

  /** Tournament sample size; it must not exceed the population size. */
  const TournamentSize: nat := 20

  /** Carry the best individual of a generation into the next one unchanged. */
  const Elitism: bool := true

  const SaveBestImages: bool := true
  const SaveEveryNGenerations: nat := 50

  /** Probability that a chromosome mutation perturbs a gene locally rather than replacing it. */
  const GeneLocalMutationProb: real := 0.8
}
