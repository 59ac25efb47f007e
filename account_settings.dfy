/** The Account Settings page: the change-password form, the avatar initials and
    the delete-account dialog. Toasts are returned as outcomes. */
module AccountSettings {
  import Text

  /** Which toast `handleChangePassword` raises. */
  datatype PasswordOutcome = Mismatch | MissingCurrent | Changed

  /** The checks of `handleChangePassword`, in order: the confirmation first, then
      the current password. Nothing is asked of the new password itself. */
  function CheckPasswordChange(current: string, newPassword: string, confirm: string): (r: PasswordOutcome)
    ensures r == Mismatch <==> newPassword != confirm
    ensures r == MissingCurrent <==> newPassword == confirm && current == ""
    ensures r == Changed <==> newPassword == confirm && current != ""
  {
    if newPassword != confirm then Mismatch
    else if current == "" then MissingCurrent
    else Changed
  }

  /** An empty new password is accepted, as long as it is confirmed and a current one is given. */
  lemma EmptyNewPasswordAccepted(current: string)
    requires current != ""
    ensures CheckPasswordChange(current, "", "") == Changed
  {
  }

  /** A mismatch is reported even when the current password is missing too. */
  lemma MismatchReportedFirst(newPassword: string, confirm: string)
    requires newPassword != confirm
    ensures CheckPasswordChange("", newPassword, confirm) == Mismatch
  {
  }

  /** The first character of a word, or nothing for an empty word (`undefined`
      joins as the empty string). */
  function Head(word: string): (r: string)
    ensures |r| <= 1 && (word != [] ==> r == [word[0]])
  {
    if word == [] then [] else [word[0]]
  }

  function Heads(words: seq<string>): string
  {
    if words == [] then [] else Head(words[0]) + Heads(words[1..])
  }

  lemma {:induction false} HeadsConcat(a: seq<string>, b: seq<string>)
    ensures Heads(a + b) == Heads(a) + Heads(b)
  {
    if a != [] {
      assert (a + b)[1..] == a[1..] + b;
      HeadsConcat(a[1..], b);
    } else {
      assert a + b == b;
    }
  }

  /** `name.split(" ").map((n) => n[0]).join("")`. */
  function Initials(name: string): (r: string)
    ensures |r| <= |name|
    ensures name != [] && name[0] != ' ' ==> r != [] && r[0] == name[0]
  {
    var words := Text.Split(name, ' ');
    Text.JoinSplit(name, ' ');
    HeadsNoLonger(words, ' ');
    FirstHead(name);
    Heads(words)
  }

  lemma {:induction false} HeadsNoLonger(words: seq<string>, sep: char)
    requires words != []
    ensures |Heads(words)| <= |Text.Join(words, sep)|
  {
    if |words| > 1 {
      HeadsNoLonger(words[1..], sep);
    }
  }

  lemma FirstHead(name: string)
    ensures name != [] && name[0] != ' ' ==>
      Heads(Text.Split(name, ' ')) != [] && Heads(Text.Split(name, ' '))[0] == name[0]
  {
    if name != [] && name[0] != ' ' {
      var words := Text.Split(name, ' ');
      assert words[0] != [] && words[0][0] == name[0];
      assert words == [words[0]] + words[1..];
    }
  }

  /** Initials of words joined by a space are the initials of each side. */
  lemma InitialsOfTwoParts(first: string, rest: string)
    requires ' ' !in first
    ensures Initials(first + " " + rest) == Initials(first) + Initials(rest)
  {
    Text.SplitAround(first, rest, ' ');
    HeadsConcat(Text.Split(first, ' '), Text.Split(rest, ' '));
  }

  /** A name without spaces is one word: its initials are its first character. */
  lemma {:induction false} SplitOfWord(w: string)
    requires ' ' !in w
    ensures Text.Split(w, ' ') == [w]
  {
    if w != [] {
      SplitOfWord(w[1..]);
      assert [w[0]] + w[1..] == w;
    }
  }

  lemma InitialsOfWord(w: string)
    requires ' ' !in w
    ensures Initials(w) == Head(w)
  {
    SplitOfWord(w);
    assert Initials(w) == Heads([w]);
    assert Heads([w]) == Head(w) + Heads([w][1..]);
    assert [w][1..] == [];
  }

  lemma InitialsExamples()
    ensures Initials("John Doe") == "JD"
    ensures Initials("") == ""
  {
    assert "John Doe" == "John" + " " + "Doe";
    InitialsOfTwoParts("John", "Doe");
    InitialsOfWord("John");
    InitialsOfWord("Doe");
    assert Head("John") == "J" && Head("Doe") == "D";
    assert Text.Split("", ' ') == [""];
  }

  /** The state of the page that its two handlers change. */
  class AccountSettingsPage {
    var name: string
    var email: string
    var company: string
    var country: string
    var phone: string
    var address: string
    var timezone: string
    var currentPassword: string
    var newPassword: string
    var confirmPassword: string
    var openDeleteDialog: bool

    constructor ()
      ensures name == "John Doe" && email == "john@example.com" && company == "Freelance Consultant"
      ensures country == "us" && phone == "" && address == "" && timezone == "America/New_York"
      ensures currentPassword == "" && newPassword == "" && confirmPassword == "" && !openDeleteDialog
    {
      name, email, company := "John Doe", "john@example.com", "Freelance Consultant";
      country, phone, address, timezone := "us", "", "", "America/New_York";
      currentPassword, newPassword, confirmPassword := "", "", "";
      openDeleteDialog := false;
    }

    twostate predicate ProfileUnchanged()
      reads this
    {
      && name == old(name) && email == old(email) && company == old(company) && country == old(country)
      && phone == old(phone) && address == old(address) && timezone == old(timezone)
    }

    function AvatarInitials(): string
      reads this
    {
      Initials(name)
    }

    method ChangePassword() returns (outcome: PasswordOutcome)
      modifies this
      ensures outcome == CheckPasswordChange(old(currentPassword), old(newPassword), old(confirmPassword))
      ensures outcome == Changed ==> currentPassword == "" && newPassword == "" && confirmPassword == ""
      ensures outcome != Changed ==>
        currentPassword == old(currentPassword) && newPassword == old(newPassword) && confirmPassword == old(confirmPassword)
      ensures ProfileUnchanged() && openDeleteDialog == old(openDeleteDialog)
    {
      if newPassword != confirmPassword {
        return Mismatch;
      }
      if currentPassword == "" {
        return MissingCurrent;
      }
      currentPassword, newPassword, confirmPassword := "", "", "";
      return Changed;
    }

    /** `handleDeleteAccount` only closes the dialog; nothing is deleted. */
    method DeleteAccount()
      modifies this
      ensures !openDeleteDialog
      ensures ProfileUnchanged()
      ensures currentPassword == old(currentPassword) && newPassword == old(newPassword)
      ensures confirmPassword == old(confirmPassword)
    {
      openDeleteDialog := false;
    }
  }
}
