/** The settings of `src/config.py` that the testing engine reads. */
module Config {
  /** The class a method-mode solution defines. */
  const SolutionClassName: string := "Solution"

  /** The entry point of a stream-mode solution. */
  const MainFunctionName: string := "main"

  /** With no solution name given, test the solution modified last. */
  const LaunchLastModifiedSolution: bool := true

  /** The solution tested when no name is given and the last modified one is
      not sought. */
  const SolutionDefaultName: string := "main"

  /** The width of the report banners. */
  const HeaderWidth: int := 40
}
