/** The process environment as `os.LookupEnv` sees it: a variable is set
    exactly when it is a key of the map. */
module ProcessEnv {
  type Env = map<string, string>
}
