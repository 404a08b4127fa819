/** The settings of config.py that the core reads; environment loading is not modelled. */
module Config {

  /** `settings.PAGE_SIZE_DEFAULT`. */
  const PAGE_SIZE_DEFAULT: int := 10

  /** `settings.PAGE_SIZE_MAX`: the facade never asks the store for a larger page. */
  const PAGE_SIZE_MAX: int := 100
}
