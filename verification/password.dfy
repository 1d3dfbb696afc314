/**
 * The password rules shown at sign-up (src/lib/passwordStrength.ts): five
 * requirements, and a password is strong when it meets every one.
 */
module Password {

  datatype Requirement = Length | Lower | Upper | Number | Special

  /** The requirements, in the order the sign-up form lists them. */
  const PASSWORD_REQUIREMENTS: seq<Requirement> := [Length, Lower, Upper, Number, Special]

  function Id(r: Requirement): string {
    match r
    case Length => "length"
    case Lower => "lower"
    case Upper => "upper"
    case Number => "number"
    case Special => "special"
  }

  function Label(r: Requirement): string {
    match r
    case Length => "At least 8 characters"
    case Lower => "One lowercase letter"
    case Upper => "One uppercase letter"
    case Number => "One number"
    case Special => "One special character (!@#$%^&*)"
  }

  /** The characters of the class `[!@#$%^&*(),.?":{}|<>]`. */
  const SPECIAL_CHARACTERS: set<char> :=
    {'!', '@', '#', '$', '%', '^', '&', '*', '(', ')', ',', '.', '?', '"', ':', '{', '}', '|', '<', '>'}

  predicate HasCharIn(p: string, lo: char, hi: char) {
    exists c :: c in p && lo <= c <= hi
  }

  predicate HasSpecial(p: string) {
    exists c :: c in p && c in SPECIAL_CHARACTERS
  }

  /** The test of one requirement. */
  predicate Test(r: Requirement, p: string) {
    match r
    case Length => |p| >= 8
    case Lower => HasCharIn(p, 'a', 'z')
    case Upper => HasCharIn(p, 'A', 'Z')
    case Number => HasCharIn(p, '0', '9')
    case Special => HasSpecial(p)
  }

  /** Array.prototype.every over a list of requirements. */
  function Every(reqs: seq<Requirement>, p: string): (b: bool)
    ensures b <==> forall i :: 0 <= i < |reqs| ==> Test(reqs[i], p)
  {
    if reqs == [] then true else Test(reqs[0], p) && Every(reqs[1..], p)
  }

  /** isPasswordStrong: eight characters or more, with a lower-case letter, an upper-case letter, a digit and a special character. */
  function IsPasswordStrong(password: string): (b: bool)
    ensures b <==> (&& |password| >= 8
                    && HasCharIn(password, 'a', 'z')
                    && HasCharIn(password, 'A', 'Z')
                    && HasCharIn(password, '0', '9')
                    && HasSpecial(password))
  {
    var b := Every(PASSWORD_REQUIREMENTS, password);
    assert Test(PASSWORD_REQUIREMENTS[0], password) == (|password| >= 8);
    assert Test(PASSWORD_REQUIREMENTS[1], password) == HasCharIn(password, 'a', 'z');
    assert Test(PASSWORD_REQUIREMENTS[2], password) == HasCharIn(password, 'A', 'Z');
    assert Test(PASSWORD_REQUIREMENTS[3], password) == HasCharIn(password, '0', '9');
    assert Test(PASSWORD_REQUIREMENTS[4], password) == HasSpecial(password);
    b
  }

  /** Every requirement is needed: failing any one of them makes the password weak. */
  lemma {:induction false} EachRequirementNeeded(password: string, r: Requirement)
    requires !Test(r, password)
    ensures !IsPasswordStrong(password)
  {
    var i := match r case Length => 0 case Lower => 1 case Upper => 2 case Number => 3 case Special => 4;
    assert PASSWORD_REQUIREMENTS[i] == r;
  }

  /** Appending characters never makes a strong password weak. */
  lemma {:induction false} StrongStaysStrong(password: string, more: string)
    requires IsPasswordStrong(password)
    ensures IsPasswordStrong(password + more)
  {
    var p := password + more;
    var lower :| lower in password && 'a' <= lower <= 'z';
    var upper :| upper in password && 'A' <= upper <= 'Z';
    var digit :| digit in password && '0' <= digit <= '9';
    var special :| special in password && special in SPECIAL_CHARACTERS;
    assert lower in p && upper in p && digit in p && special in p;
  }

  /** Two sample passwords: one meets every rule, the other lacks an upper-case letter. */
  lemma SamplePasswords()
    ensures IsPasswordStrong("Passw0rd!")
    ensures !IsPasswordStrong("passw0rd!")
  {
    var p := "Passw0rd!";
    assert p[0] in p && p[1] in p && p[5] in p && p[8] in p;
    assert !HasCharIn("passw0rd!", 'A', 'Z');
  }
}
