/** The world outside: a read, a write or a request may fail at any moment, unless it is said to be steady. */
module Environment {
  method Fails(steady: bool) returns (failed: bool)
    ensures steady ==> !failed
  {
    failed := *;
    if steady {
      failed := false;
    }
  }
}
