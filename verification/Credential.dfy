/** Usernames and passwords as `internal/api/auth.go` accepts them. */
module Credential {
  import opened Text

  const MIN_PASSWORD_LENGTH := 8

  predicate GoodUsername(username: string) {
    TrimSpace(username) == username && 3 <= ByteLength(username) <= 32
  }

  predicate GoodPassword(password: string) {
    MIN_PASSWORD_LENGTH <= ByteLength(password)
  }

  /** Which credentials are accepted: space around the name does not count, and lengths are in bytes. */
  lemma AcceptsExactly(username: string, password: string)
    ensures GoodUsername(TrimSpace(username)) && GoodPassword(password)
            <==> 3 <= ByteLength(TrimSpace(username)) <= 32 && 8 <= ByteLength(password)
  {
    TrimSpaceOfTrimmed(TrimSpace(username));
  }

  /** A username and password pair, normalised in place. */
  class Credentials {
    var username: string
    var password: string

    constructor (username: string, password: string)
      ensures this.username == username && this.password == password
    {
      this.username, this.password := username, password;
    }

    /** Accepts a good password under a name that is good once its surrounding space is gone, and leaves that name
        behind. */
    method Validate() returns (message: string)
      modifies this`username
      ensures username == TrimSpace(old(username))
      ensures message == "" <==> GoodUsername(username) && GoodPassword(password)
    {
      username := TrimSpace(username);
      TrimSpaceOfTrimmed(username);
      if ByteLength(username) < 3 || ByteLength(username) > 32 {
        return "username must be 3-32 characters";
      }
      if ByteLength(password) < MIN_PASSWORD_LENGTH {
        return "password must be at least 8 characters";
      }
      return "";
    }
  }
}
