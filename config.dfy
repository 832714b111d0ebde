/** The fixed configuration table of the calculator (`CONFIG`). */
module Config {

  /** Base hours per project type, keyed by the project-type selector's value. */
  const ProjectBaseHours: map<string, real> :=
    map[
      "landing" := 12.0,
      "brochure" := 24.0,
      "blog" := 30.0,
      "ecommerce" := 60.0,
      "webapp" := 80.0,
      "custom" := 40.0
    ]

  /** Base hours used when the selected key is not in the table. */
  const FallbackBaseHours: real := 40.0

  /** Share of the income goal set aside for tax. */
  const TaxRate: real := 0.25

  /** Weeks in a year. */
  const WeeksPerYear: real := 52.0
}
