/** How a SvelteKit `load` function or form action ends, reduced to status and target. */
module Kit {
  datatype Outcome =
    | Data                                    // returns `{}`
    | Redirect(status: int, location: string) // `throw redirect(status, location)`
    | Failure(status: int, error: string)     // `return fail(status, { error })`

  const LoginPath := "/login"
  const Found := 302
}
