# ScutoidOS in Dafny

This project models ScutoidOS, a small x86 operating system, in Dafny 4. The model covers:

- **The floppy image builder** (`build_image.py`). It checks the boot sector, pads it to one sector, pads the kernel to whole sectors and pads the image to 1.44 MB.
- **The two C consoles.**
  - `terminal.c`, and the console inside the kernel shell of `kernel.c`, share one screen model. It covers the 80x25 VGA text buffer, the cursor and the colour, and scrolling. It also covers newline, carriage return, tab stops every 4 columns and backspace.
  - `kernel_micropython.c` has its own console, which only handles newline and carriage return.
- **The keyboard ring** that both kernels read. An interrupt handler writes scancodes into a 256-byte ring at 0x9002; its indices live at 0x9000 and 0x9001. Scancodes are translated by the set-1 table.
- **The kernel shell of `kernel.c`.**
  - A 256-byte command line, edited one key at a time.
  - `run_command` skips leading spaces and compares with `kstrcmp`/`kstrncmp`.
  - The commands help, about, mem, clear, colors, echo and reboot.
  - `print_hex`, whose digits are proved to read back to the printed value.
- **The Python programs run under MicroPython.**
  - `main.py`, and the two terminals `Apps/Terminal` and `programs/Terminal`, with `cd` path arithmetic and Python's `strip`, `split`, `lower`, `join` and `replace`.
  - The two text editors, built on a shared line buffer.
  - The two calculators, with a shared model of number entry.

The C files and the Python programs are modelled as classes, one per stateful entity. Their fields are the variables the source updates: `cx`/`cy`/`color`/`cmdbuf`, the ring indices, `command_buffer`/`history`/`current_dir`, and so on. Each method is proved against a function on values:

- A `Screen` value (cursor, colour and the 2000 cells) for the consoles.
- An `Interpret` function for each command dispatcher.
- `TextBuffer.InsertKey` for the editors.
- `CalcEntry.Digit`/`Decimal` for the calculators.

The properties of the system are lemmas about those functions. Whatever a Python program prints is returned as an abstract `Output` event rather than drawn.

The model follows the code as written, including these behaviours:

- `build_image.py` checks the boot signature on the bootloader *before* padding it. A 510-byte bootloader ending in 55 AA passes the check, yet its image has zeros at offsets 510-511 (`BootImage.UnpaddedSignatureCheck`).
- In both calculators, '.' is ignored after a result that already holds a '.', so the next digit replaces the result (`CalcEntry.DecimalAfterDottedResult`). '.' is also appended without the 15-character cap that digits obey (`CalcEntry.DecimalIgnoresCap`).
- The kernel shell matches its keywords exactly. "help " and "HELP" are unknown, and "echo" without its space is unknown too. `main.py`, in contrast, lower-cases the whole line, so echoed text comes out lower-case (`MainShell.EchoIsLowerCase`).
- `cd ..` uses `'/'.join(cwd.rstrip('/').split('/')[:-1]) or '/'`. `str.replace('//', '/')` makes a single pass, so "///" becomes "//" (`PyStr.CollapseIsOnePass`).

## Model

| member | source | states |
|---|---|---|
| BootImage.Zeros | build_image.py:27 | n zero bytes |
| BootImage.LastWordLE | build_image.py:21 | the little-endian value of the last two bytes is below 0x10000, and is 0xAA55 exactly when they are 55 AA |
| BootImage.SignatureWarning | build_image.py:19-23 | a warning is given iff the bootloader has at least 2 bytes and does not end in 55 AA; the warned value is never 0xAA55 |
| BootImage.PadBoot | build_image.py:25-27 | the boot sector is exactly 512 bytes: the bootloader followed by zeros |
| BootImage.SectorCount | build_image.py:37 | the least number of 512-byte sectors holding the kernel; zero only for an empty kernel |
| BootImage.PadKernel | build_image.py:40-42 | the kernel followed by zeros up to a whole number of sectors; unchanged when already sector-aligned |
| BootImage.ComposeImage | build_image.py:44-49 | boot sector then kernel, zero-filled to 1474560 bytes unless already longer |
| BootImage.Build | build_image.py:6-56 | the build fails exactly when the bootloader is missing or oversize, or the kernel is missing; a built image starts with the padded boot sector, is at least a floppy long, and reports the kernel's sector count and the signature warning |
| BootImage.OversizeBootIsFatal | build_image.py:15-17 | a bootloader over 512 bytes fails the build whatever the kernel |
| BootImage.FailureCauses | build_image.py:8-17 | the build fails exactly when the bootloader is missing or oversize, or the kernel is missing |
| BootImage.ImageLayout | build_image.py:6-56 | a successful build: the boot sector at offset 0, the kernel at 512, zeros elsewhere, the sector count and the warning |
| BootImage.ImageFitsFloppy | build_image.py:46-49 | the image is exactly a floppy when the kernel fits in the 2879 sectors after the boot sector |
| BootImage.OversizeKernelIsKept | build_image.py:44-49 | a kernel too big for the floppy is not truncated: the image is longer than 1474560 bytes |
| BootImage.UnpaddedSignatureCheck | build_image.py:19-27 | a 510-byte bootloader ending in 55 AA raises no warning, yet image bytes 510-511 are zero |
| BootImage.ShortBootNeverWarns | build_image.py:20 | a bootloader of fewer than 2 bytes is never checked for a signature |
| BootImage.ScenarioSignedBootSmallKernel | build_image.py:6-56 | a signed 510-byte bootloader and a 1000-byte kernel give 2 sectors, no warning, a floppy-sized image |
| BootImage.ScenarioUnsignedBoot | build_image.py:20-23 | a 512-byte bootloader ending in two zero bytes warns with value 0 and is still built |
| BootImage.ScenarioEmptyKernel | build_image.py:37-49 | an empty kernel has zero sectors and the image is the boot sector and zeros |
| VgaText.Cell | kernel.c:142 | a VGA cell holds the colour in its high byte and the character in its low byte |
| VgaText.Scrolled | kernel.c:116-125 | rows 1-24 move up one row and the last row is blank in the current colour |
| VgaText.Cleared | kernel.c:106-114 | every cell is blank in the current colour |
| VgaText.Scroll | kernel.c:116-125 | the cursor moves to row 24 in its column; rows 1-24 move up one row and the last row is blank in the current colour |
| VgaText.Clear | kernel.c:106-114 | every cell blank in the current colour, cursor home |
| VgaText.Interpret | kernel.c:129-144 | a glyph is stored under the cursor, which advances; control characters write no cell, except backspace blanking the cell before the cursor; only newline moves down a row |
| VgaText.Put | kernel.c:127-148 | a character keeps the screen valid (cursor on screen) and the colour unchanged |
| VgaText.PutString | kernel.c:150-152 | printing a string keeps the screen valid and the colour unchanged |
| VgaText.PutStringAppend | kernel.c:150-152 | printing a + b is printing a, then b |
| VgaText.PutGlyph | kernel.c:141-146 | a printable character is written under the cursor in the current colour and the cursor advances, wrapping and scrolling at the edges |
| VgaText.PutNewline | kernel.c:129-131 | newline moves to column 0 of the next row, scrolling from the last row |
| VgaText.PutCarriageReturn | kernel.c:132-133 | carriage return only moves to column 0 |
| VgaText.PutTab | kernel.c:134-135 | tab moves to the next multiple of 4, wrapping at the end of the row |
| VgaText.PutBackspace | kernel.c:136-140 | backspace moves left and blanks that cell; at column 0 it does nothing |
| VgaText.LineOnlyWritesTabAndBackspace | kernel_micropython.c:58-76 | the MicroPython console draws tab and backspace as glyphs |
| VgaText.GlyphCarriesColor | kernel.c:142 | a drawn character carries the colour in force |
| Keyboard.Ring.constructor | kernel.c:13-15 | an empty ring with both indices at 0 |
| Keyboard.Ring.Pending | kernel.c:163-165 | the number of unread scancodes is below 256, and zero exactly when the indices are equal |
| Keyboard.Ring.HasInput | kernel.c:163-165 | `kb_available`: input is pending exactly when the indices differ |
| Keyboard.Ring.Read | kernel.c:167-172 | `kb_read` returns the byte at the read index and advances it modulo 256; with input pending that is the oldest scancode and the rest stay queued |
| Keyboard.WindowAdvance | kernel.c:167-172 | reading takes the first unread scancode, and the rest are the window one index further on |
| Keyboard.PendingAfterRead | kernel.c:163-172 | with input pending, a read leaves one scancode fewer pending |
| Keyboard.TableIsAscii | kernel.c:175-181 | the scancode table has 58 entries, all ASCII |
| Keyboard.ScToAscii | kernel.c:174-184 | a scancode inside the 58-entry table gives its table entry, any other gives NUL |
| Keyboard.ScancodeToAscii | kernel_micropython.c:133-148 | `scutoid.scancode_to_ascii` gives a one-character string exactly when the byte-truncated scancode has a non-NUL table entry, and that string holds the entry; otherwise None |
| Keyboard.LookupsAgree | kernel_micropython.c:133-148 | the MicroPython lookup and the kernel's `sc_to_ascii` agree on every byte |
| Keyboard.LookupTruncates | kernel_micropython.c:142 | the MicroPython lookup truncates its integer argument to a byte |
| Keyboard.ScancodeExamples | kernel.c:175-181 | Enter, backspace, space, tab, q and 1 map as on a US keyboard; Esc, Caps Lock and key releases give NUL |
| Keyboard.TruncatedEnter | kernel_micropython.c:142-147 | 0x11C is truncated to 0x1C and gives Enter as a one-character string |
| TerminalDriver.Terminal.constructor | terminal.c:9-11 | cursor home, light grey on black |
| TerminalDriver.Terminal.Init | terminal.c:25-29 | cursor home and default colour; the cells are untouched |
| TerminalDriver.Terminal.HasInput | terminal.c:31-33 | input is pending exactly when the ring is non-empty |
| TerminalDriver.Terminal.ReadChar | terminal.c:35-40 | the scancode at the old read index is returned, and the read index advances modulo 256 |
| TerminalDriver.Terminal.WriteChar | terminal.c:42-71 | the screen after one character is `VgaText.Put` in the full dialect |
| TerminalDriver.Terminal.Advance | terminal.c:45-60 | the character-dependent half of `terminal_write_char`: `VgaText.Interpret` in the full dialect, the cursor at most one past the edge |
| TerminalDriver.Terminal.WriteString | terminal.c:73-77 | for a C string whose text is s (no NUL before the terminator), the screen becomes `VgaText.PutString` of s |
| TerminalDriver.Terminal.Clear | terminal.c:79-90 | every cell blank in the current colour, cursor home |
| TerminalDriver.Terminal.SetColor | terminal.c:92-94 | only the colour changes |
| TerminalDriver.Terminal.Scroll | terminal.c:96-110 | the cells become `VgaText.Scrolled` of the old cells and the cursor moves to the last row |
| KernelLib.NulIndex | kernel.c:188-191 | the position of the first NUL |
| KernelLib.Text | kernel.c:188-191 | a C string's text has no NUL and is followed by one |
| KernelLib.TextOfLiteral | kernel.c:262-276 | a literal's C string has the literal as its text |
| KernelLib.TextUpTo | kernel.c:256 | a buffer NUL-terminated at `cmdlen` holds the first `cmdlen` characters as its text |
| KernelLib.KStrcmp | kernel.c:188-191 | `kstrcmp` returns 0 exactly when the two texts are equal |
| KernelLib.KStrncmp | kernel.c:193-199 | `kstrncmp` returns 0 exactly when the first n characters of the two texts agree |
| KernelLib.Agree | kernel.c:196-197 | texts agreeing before position i, and on a non-NUL character at i, agree up to i + 1 |
| KernelLib.DifferAt | kernel.c:196-197 | texts agreeing before i < n and differing at i differ on their first n characters |
| KernelLib.EndTogether | kernel.c:197 | texts agreeing before i and both ending at i agree on their first n characters |
| KernelLib.AgreeOn | kernel.c:195-198 | texts agreeing on n characters before either ends agree on their first n characters |
| KernelLib.PrefixCompare | kernel.c:272 | comparing the first \|w\| characters with a literal w tests that w is a prefix |
| KernelLib.Nibble | kernel.c:158 | `(val >> i) & 0xF` is below 16 |
| KernelLib.HexDigits | kernel.c:154-159 | eight upper-case hexadecimal digits |
| KernelLib.DigitValue | kernel.c:155 | each hexadecimal digit has its value |
| KernelLib.DigitValueOf | kernel.c:155 | the digit of value d reads back as d |
| KernelLib.ShiftStep | kernel.c:157-158 | shifting by one more nibble divides by 16 |
| KernelLib.ShiftOut | kernel.c:157 | an unsigned int has no ninth hexadecimal digit |
| KernelLib.HexDigitAt | kernel.c:157-158 | the digit printed at position j is the nibble 7 - j |
| KernelLib.HexPrefixValue | kernel.c:154-159 | the first n digits printed denote the value shifted right by 8 - n nibbles |
| KernelLib.HexRoundTrip | kernel.c:154-159 | the eight digits `print_hex` prints read back to the printed 32-bit value |
| KernelShell.SkipSpacesShape | kernel.c:258-259 | skipping drops a run of spaces from the front of the line and stops at a non-space or the end |
| KernelShell.SkipSpaces | kernel.c:258 | the skipped line is no longer than the line and does not start with a space |
| KernelShell.Classify | kernel.c:259-284 | only the empty line is no command; echo is chosen exactly when the text starts with "echo " and gets the rest; an unknown command keeps the whole text |
| KernelShell.ClassifyNulFree | kernel.c:272-283 | a command read from a NUL-free line prints only NUL-free text |
| KernelShell.Print | kernel.c:150-152 | `kprint` keeps the screen valid and the colour |
| KernelShell.PrintHex | kernel.c:154-159 | `print_hex` keeps the screen valid and the colour |
| KernelShell.PromptSpec | kernel.c:203-211 | the prompt leaves a valid screen |
| KernelShell.Help | kernel.c:213-222 | the help text keeps the screen valid and the colour |
| KernelShell.About | kernel.c:224-230 | the about text leaves the colour light grey |
| KernelShell.MemLine | kernel.c:235-238 | one memory line keeps the colour |
| KernelShell.Mem | kernel.c:232-239 | the memory map keeps the colour |
| KernelShell.ColorLines | kernel.c:248-251 | after n lines of the colour test, the colour is n - 1 |
| KernelShell.Colors | kernel.c:241-253 | the colour test ends in light grey |
| KernelShell.Execute | kernel.c:260-284 | every command leaves a valid screen |
| KernelShell.Keypress | kernel.c:70-85 | the line stays below 256 characters and never gains a NUL |
| KernelShell.EditorStep | kernel.c:65-85 | a scancode keeps the line below 256 characters and free of NUL |
| KernelShell.Kernel.constructor | kernel.c:17-19 | cursor home, light grey, empty command line |
| KernelShell.Kernel.Scroll | kernel.c:116-125 | the cells become `VgaText.Scrolled` of the old ones and the cursor moves to row 24 |
| KernelShell.Kernel.ClearScreen | kernel.c:106-114 | the screen becomes `VgaText.Clear` of the old one |
| KernelShell.Kernel.Putchar | kernel.c:127-148 | the screen becomes `VgaText.Put` of the old screen and the character |
| KernelShell.Kernel.Advance | kernel.c:129-144 | the character-dependent half of `putchar`: `VgaText.Interpret` in the full dialect, the cursor at most one past the edge |
| KernelShell.Kernel.KPrint | kernel.c:150-152 | for a C string whose text is t (no NUL before the terminator), the screen becomes `Print` of the old screen and t |
| KernelShell.Kernel.PrintHexDigits | kernel.c:154-159 | the screen becomes `PrintHex` of the old screen and the value |
| KernelShell.Kernel.PutNibbles | kernel.c:157-158 | the screen becomes `Print` of the old screen and the eight hexadecimal digits |
| KernelShell.Kernel.Prompt | kernel.c:203-211 | the screen becomes `PromptSpec` of the old screen, the caller's colour restored |
| KernelShell.Kernel.CmdHelp | kernel.c:213-222 | the screen becomes `Help` of the old one |
| KernelShell.Kernel.CmdAbout | kernel.c:224-230 | the screen becomes `About` of the old one |
| KernelShell.Kernel.CmdMem | kernel.c:232-239 | the screen becomes `Mem` of the old one, for the given stack pointer |
| KernelShell.Kernel.PrintMemLine | kernel.c:235-238 | one line of the memory map: the screen becomes `MemLine` of the old screen, the caption and the value |
| KernelShell.Kernel.CmdColors | kernel.c:241-253 | the screen becomes `Colors` of the old one |
| KernelShell.Kernel.PrintColorLine | kernel.c:249-251 | one line of the colour test: two spaces, the colour's name and a newline |
| KernelShell.Kernel.Recognize | kernel.c:260-284 | the comparison chain selects `Classify` of the text |
| KernelShell.Kernel.Perform | kernel.c:262-284 | the selected branch prints what `Execute` says |
| KernelShell.Kernel.Terminate | kernel.c:256 | the NUL goes after the line, which is unchanged |
| KernelShell.Kernel.SkipLeading | kernel.c:258-259 | the index of the first non-space character: the rest of the line is `SkipSpaces` of it |
| KernelShell.Kernel.ReadCommand | kernel.c:256-284 | the command recognised is `Classify(SkipSpaces(line))`, its text holds no NUL, and the line is unchanged |
| KernelShell.Kernel.RunCommand | kernel.c:255-285 | the command run is `Classify(SkipSpaces(line))`, the screen is `Execute` of it and the line is unchanged |
| KernelShell.Kernel.Edit | kernel.c:70-85 | the screen, line and command run are `Keypress` of the old screen and line |
| KernelShell.Kernel.HandleScancode | kernel.c:65-85 | the screen, line and command run are `EditorStep` of the scancode |
| KernelShell.Kernel.Step | kernel.c:61-89 | without input nothing changes; with input the oldest scancode is consumed and handled as `EditorStep` says |
| KernelShell.Equals | kernel.c:188-191 | `kstrcmp(p, w) == 0` exactly when p's text is w |
| KernelShell.StartsWith | kernel.c:193-199 | `kstrncmp(p, w, \|w\|) == 0` exactly when w is a prefix of p's text |
| KernelShell.SkipSpacesFrom | kernel.c:258-259 | after i leading spaces and a non-space, the command starts at i |
| KernelShell.PrintOneMore | kernel.c:151 | printing one more character of a text puts it after what was printed before |
| KernelShell.LeadingSpacesIgnored | kernel.c:258-260 | any run of spaces in front of a line leaves the skipped line, and so the command run, unchanged |
| KernelShell.BlankLineDoesNothing | kernel.c:259-260 | a line of spaces runs nothing |
| KernelShell.ClassifyRoundTrip | kernel.c:260-284 | each recognised command is named by exactly the text it came from |
| KernelShell.KeywordsMatchExactly | kernel.c:262 | "help" is help, but "help " and "HELP" are unknown |
| KernelShell.EchoNeedsItsSpace | kernel.c:272-275 | "echo" is unknown; "echo " echoes nothing; the rest of the line is echoed as typed |
| KernelShell.IgnoredScancodes | kernel.c:65-68 | key releases and unmapped keys change nothing |
| KernelShell.EnterRunsLine | kernel.c:70-74 | Enter runs the line with its leading spaces skipped, and empties it |
| KernelShell.OtherKeysRunNothing | kernel.c:75-85 | only Enter runs a command |
| KernelShell.FullLineDropsKeys | kernel.c:81-84 | at 255 characters further keys are dropped |
| KernelShell.TypeThenErase | kernel.c:75-84 | a character and a backspace give the line back and leave only a blank under the cursor |
| KernelShell.BackspaceOnEmptyLine | kernel.c:75-79 | backspace on an empty line changes nothing |
| KernelShell.PromptKeepsColor | kernel.c:203-209 | the prompt hands the caller's colour back |
| MicroPythonKernel.Machine.constructor | kernel_micropython.c:28-30 | cursor home, light cyan on black |
| MicroPythonKernel.Machine.ClearScreen | kernel_micropython.c:36-44 | the screen becomes `VgaText.Clear` of the old one |
| MicroPythonKernel.Machine.ScrollScreen | kernel_micropython.c:46-56 | the cells become `VgaText.Scrolled` of the old ones and the cursor moves to the last row |
| MicroPythonKernel.Machine.Putchar | kernel_micropython.c:58-76 | the screen becomes `VgaText.Put` in the newline-only dialect |
| MicroPythonKernel.Machine.Advance | kernel_micropython.c:60-68 | the character-dependent half of `putchar`: `VgaText.Interpret` in the newline-only dialect, the cursor at most one past the edge |
| MicroPythonKernel.Machine.Print | kernel_micropython.c:78-82 | the characters up to the first NUL are put in order |
| MicroPythonKernel.Machine.SetColor | kernel_micropython.c:84-86 | only the colour changes |
| MicroPythonKernel.Machine.KeyboardAvailable | kernel_micropython.c:116-120 | input is available exactly when the ring's indices differ |
| MicroPythonKernel.Machine.KeyboardRead | kernel_micropython.c:124-129 | the byte at the read index is returned and the index advances modulo 256 |
| MicroPythonKernel.PrintStopsAtNul | kernel_micropython.c:78-82 | characters after the NUL are never drawn |
| PyStr.StripLeft | Apps/Terminal/main.py:55 | the longest suffix not starting with whitespace, only whitespace removed |
| PyStr.StripRight | Apps/Terminal/main.py:55 | the longest prefix not ending with whitespace, only whitespace removed |
| PyStr.Strip | Apps/Terminal/main.py:55 | a prefix of `lstrip(s)` (a suffix of s) with no whitespace at either end; a string without surrounding whitespace is unchanged |
| PyStr.StripEnds | Apps/Terminal/main.py:55 | the stripped string is empty or has no whitespace at either end |
| PyStr.StripUnchanged | Apps/Terminal/main.py:55 | a string without whitespace at either end is unchanged by lstrip and by rstrip |
| PyStr.Split | Apps/Terminal/main.py:55 | at most one word per character; a non-empty string without whitespace is one word; a string of whitespace has none |
| PyStr.SplitWordSpace | Apps/Terminal/main.py:55 | a word followed by a space splits into that word and the split of the rest |
| PyStr.Join | Apps/Terminal/main.py:157 | no words join to the empty string and one word to itself; two or more are at least as long as the first word, one separator and the last word |
| PyStr.WordLen | Apps/Terminal/main.py:55 | the leading run of non-whitespace ends at whitespace or the end |
| PyStr.SplitWords | Apps/Terminal/main.py:55 | the words `split()` returns are non-empty and hold no whitespace |
| PyStr.IndexOf | Apps/Terminal/main.py:141 | the first occurrence of a character |
| PyStr.LastIndexOf | Apps/Terminal/main.py:141 | the last occurrence of a character |
| PyStr.SplitOn | Apps/Terminal/main.py:141 | `split(d)` always returns at least one part |
| PyStr.Lower | Apps/Terminal/main.py:59 | same length, each character lower-cased |
| PyStr.StripRightChar | Apps/Terminal/main.py:141 | only trailing copies of the character are removed |
| PyStr.CollapseSlashes | Apps/Terminal/main.py:148 | the replacement never lengthens the string; with `CollapseWithoutPairs` and `CollapseFirstPair` its result is determined on every string |
| PyStr.WordLenOf | Apps/Terminal/main.py:55 | a word followed by whitespace is read as that word |
| PyStr.SplitJoin | Apps/Terminal/main.py:55 | splitting words joined by spaces gives the words back |
| PyStr.SplitOnPieces | Apps/Terminal/main.py:141 | no part of `split(d)` holds d |
| PyStr.JoinSplitOn | Apps/Terminal/main.py:141 | splitting on d and joining with d gives the string back |
| PyStr.SliceAround | Apps/Terminal/main.py:141 | a prefix past position i is the part before i, s[i] and the start of the rest |
| PyStr.JoinCons | Apps/Terminal/main.py:141 | joining a word in front of more words puts the separator between them |
| PyStr.SplitOnCons | Apps/Terminal/main.py:141 | on a string holding d, `split(d)` is the part before the first d followed by the split of the rest, so at least two parts |
| PyStr.JoinSnoc | Apps/Terminal/main.py:141 | joining two or more parts is the join of all but the last, the separator and the last |
| PyStr.JoinAllButLast | Apps/Terminal/main.py:141 | all pieces but the last, joined, are the string up to its last separator |
| PyStr.LastIndexInTail | Apps/Terminal/main.py:141 | the last separator is the last of the tail after the first one, when the tail has one |
| PyStr.LastIndexBefore | Apps/Terminal/main.py:141 | the last d of a + d + b, when b has none, is at \|a\| |
| PyStr.BeforeLast | Apps/Terminal/main.py:141 | in front + d + last, with no d in last, the part before the last d is front |
| PyStr.LowerIdempotent | main.py:30 | lower-casing twice is lower-casing once |
| PyStr.LowerKeepsSpaces | main.py:30 | lower-casing keeps whitespace where it was |
| PyStr.LowerWithoutCapitals | main.py:30 | a string without capital letters is its own lower case |
| PyStr.LowerHasNoCapitals | main.py:30 | a lower-cased string holds no capital letter |
| PyStr.StripShape | Apps/Terminal/main.py:55 | only whitespace lies in front of and behind the stripped part |
| PyStr.CollapseWithoutPairs | Apps/Terminal/main.py:148 | a string without "//" is unchanged |
| PyStr.CollapseFirstPair | Apps/Terminal/main.py:148 | the first "//" (after a part with no pair, not ending in '/') becomes "/", and the rest is replaced in turn |
| PyStr.CollapseIsOnePass | Apps/Terminal/main.py:148 | "///" becomes "//" |
| ShellPath.Parent | Apps/Terminal/main.py:140-142 | the parent is never empty |
| ShellPath.ChangeDir | Apps/Terminal/main.py:135-149 | no argument goes home; an absolute argument other than ".." is taken as it stands |
| ShellPath.ParentShape | Apps/Terminal/main.py:141-142 | the parent is the directory up to its last '/', trailing slashes ignored, or the root |
| ShellPath.ParentIsAncestor | Apps/Terminal/main.py:141-142 | the parent is the root or a proper prefix ending just before a '/' |
| ShellPath.ParentOfChild | Apps/Terminal/main.py:141-142 | the parent of a/b is a, or the root when a is empty |
| ShellPath.UpFromRoot | Apps/Terminal/main.py:139-140 | `cd ..` at the root stays at the root |
| ShellPath.ParentOfTopLevel | Apps/Terminal/main.py:141-142 | "/Users" goes up to "/" |
| ShellPath.ParentOfHome | Apps/Terminal/main.py:141-142 | "/Users/Default" goes up to "/Users" |
| ShellPath.ParentIgnoresTrailingSlash | Apps/Terminal/main.py:141-142 | "/Users/Default/" also goes up to "/Users" |
| ShellPath.RelativeFromRoot | Apps/Terminal/main.py:147-148 | a relative name from the root gives "/" + name |
| ShellPath.RelativeJoin | Apps/Terminal/main.py:147-148 | a relative name is appended after one '/' |
| ShellPath.AppsFromRoot | Apps/Terminal/main.py:147-148 | `cd Apps` at the root gives "/Apps" |
| LineEdit.Edit | Apps/Terminal/main.py:188-199 | backspace drops the last character if any; any other key is appended |
| LineEdit.TypeThenErase | Apps/Terminal/main.py:188-199 | a character then backspace gives the buffer back |
| LineEdit.TypeAll | Apps/Terminal/main.py:196-199 | typing keys one by one appends exactly them |
| LineEdit.Words | Apps/Terminal/main.py:55 | at most one word per character, none empty or holding whitespace |
| LineEdit.CommandWord | Apps/Terminal/main.py:55-59 | empty exactly when the line has no word; otherwise the first word lower-cased, letter by letter |
| LineEdit.BlankHasNoWords | Apps/Terminal/main.py:55-57 | a whitespace-only line has no words |
| LineEdit.SingleWord | Apps/Terminal/main.py:55 | a single word is split into itself |
| LineEdit.ExitInCapitals | Apps/Terminal/main.py:59 | the command word of "EXIT" is "exit" |
| AppsTerminal.InterpretEffects | Apps/Terminal/main.py:53-84 | a line without words does nothing; the terminal stops iff the command word is exit or quit; only cd moves it, to `ChangeDir` of the other words |
| AppsTerminal.Interpret | Apps/Terminal/main.py:53-60 | a line without words does nothing; otherwise the lower-cased first word is run with the other words as arguments |
| AppsTerminal.Run | Apps/Terminal/main.py:62-84 | the command chain: only exit and quit stop, only cd changes the directory, to `ChangeDir` of the arguments |
| AppsTerminal.Terminal.constructor | Apps/Terminal/main.py:16-22 | empty buffer and history, running, at "/Users/Default" |
| AppsTerminal.Terminal.CmdCd | Apps/Terminal/main.py:135-149 | the directory becomes `ChangeDir` of the old one |
| AppsTerminal.Terminal.ExecuteCommand | Apps/Terminal/main.py:53-84 | the directory, running flag and output are as `Interpret` says |
| AppsTerminal.Terminal.Dispatch | Apps/Terminal/main.py:62-84 | the directory, running flag and output are as `Run` says for the command word and arguments |
| AppsTerminal.Terminal.HandleKeyboard | Apps/Terminal/main.py:173-201 | Enter records a non-empty buffer in the history, runs it and empties it; Enter on an empty buffer changes nothing; other keys only edit the buffer |
| AppsTerminal.Terminal.Submit | Apps/Terminal/main.py:181-184 | the line is appended to the history, run as `Interpret` says, and the buffer emptied |
| AppsTerminal.BlankLineDoesNothing | Apps/Terminal/main.py:55-57 | a whitespace-only line changes nothing |
| AppsTerminal.ExitInCapitalsStops | Apps/Terminal/main.py:59-81 | "EXIT" stops the terminal |
| AppsTerminal.UnknownCommandChangesNothing | Apps/Terminal/main.py:82-84 | an unknown command keeps the directory and the terminal running, and names itself |
| ProgramsTerminal.InterpretEffects | programs/Terminal/main.py:35-63 | a line without words does nothing; the terminal stops iff the command word is exit or quit; only cd moves it, to `ChangeDir` of the other words |
| ProgramsTerminal.Interpret | programs/Terminal/main.py:35-40 | a line without words does nothing; otherwise the lower-cased first word is run with the other words as arguments |
| ProgramsTerminal.Run | programs/Terminal/main.py:41-63 | the command chain: only exit and quit stop, only cd changes the directory, to `ChangeDir` of the arguments |
| ProgramsTerminal.Terminal.constructor | programs/Terminal/main.py:13-17 | empty buffer and history, running, at "/Users/Default" |
| ProgramsTerminal.Terminal.DoCd | programs/Terminal/main.py:77-88 | the directory becomes `ChangeDir` of the old one |
| ProgramsTerminal.Terminal.Exec | programs/Terminal/main.py:35-63 | the directory, running flag and output are as `Interpret` says |
| ProgramsTerminal.Terminal.Dispatch | programs/Terminal/main.py:41-63 | the directory, running flag and output are as `Run` says for the command word and arguments |
| ProgramsTerminal.Terminal.OnKey | programs/Terminal/main.py:90-108 | Enter records and runs a non-empty buffer and empties it; other keys only edit the buffer |
| ProgramsTerminal.Terminal.Submit | programs/Terminal/main.py:94-97 | the line is appended to the history, run as `Interpret` says, and the buffer emptied |
| ProgramsTerminal.BlankLineDoesNothing | programs/Terminal/main.py:36-37 | a whitespace-only line changes nothing |
| ProgramsTerminal.ExitInCapitalsStops | programs/Terminal/main.py:39-61 | "EXIT" stops the terminal |
| ProgramsTerminal.NoDateCommand | programs/Terminal/main.py:41-63 | "date", with any arguments, is answered as unknown and changes nothing in this terminal |
| ProgramsTerminal.RunUnknown | programs/Terminal/main.py:62-63 | a command word outside the chain keeps the directory and the terminal running, and names itself |
| TextBuffer.Started | Apps/TextEdit/main.py:45-46 | an empty buffer gains one empty line; a non-empty one is kept |
| TextBuffer.InsertKey | Apps/TextEdit/main.py:43-57 | Enter inserts an empty line after the current one and moves there; other keys change only the current line, as the line editor does; the invariant is kept |
| TextBuffer.InsertKeys | Apps/TextEdit/main.py:43-57 | a run of keys keeps the editor invariant |
| TextBuffer.LineCount | Apps/TextEdit/main.py:48-50 | from an empty editor, a run of keys leaves one line more than it has Enter keys |
| TextBuffer.TypeThenErase | Apps/TextEdit/main.py:52-57 | a character then backspace gives the buffer back |
| TextBuffer.EnterThenBackspace | Apps/TextEdit/main.py:48-55 | backspace after Enter never joins lines |
| AppsTextEdit.TextEdit.constructor | Apps/TextEdit/main.py:13-16 | empty buffer at line 0, file "untitled.txt" |
| AppsTextEdit.TextEdit.InsertChar | Apps/TextEdit/main.py:43-57 | the buffer and current line become `TextBuffer.InsertKey` of the old ones |
| ProgramsTextEdit.TextEdit.constructor | programs/TextEdit/main.py:11-14 | empty buffer at line 0, file "untitled.txt" |
| ProgramsTextEdit.TextEdit.Insert | programs/TextEdit/main.py:38-48 | the buffer and current line become `TextBuffer.InsertKey` of the old ones |
| CalcEntry.Digit | Apps/Calculator/main.py:60-70 | a digit starts a new number or is appended (replacing a lone "0") only below 15 characters; a typed number stays a well-formed number |
| CalcEntry.Decimal | Apps/Calculator/main.py:72-79 | nothing changes if the display already holds a '.'; otherwise a new number becomes "0." and a number being typed gets a '.' appended; a typed number stays well-formed |
| CalcEntry.KeyOf | Apps/Calculator/main.py:129-144 | digits, operators and q/Q are recognised exactly |
| CalcEntry.DigitsTyped | programs/Calculator/main.py:33-38 | after digits the display is at most 15 characters and a number is being typed |
| CalcEntry.DecimalTwice | Apps/Calculator/main.py:72-79 | the '.' key is idempotent |
| CalcEntry.TypedDigits | Apps/Calculator/main.py:60-70 | typing non-zero digits from a cleared display shows them, cut at 15 |
| CalcEntry.PointAfterTypedDigits | Apps/Calculator/main.py:60-79 | non-zero digits typed from a cleared display and then '.' show the digits followed by '.' |
| CalcEntry.DecimalAfterDottedResult | Apps/Calculator/main.py:72-79 | after the result "2.5", '.' is ignored and '5' replaces the display |
| CalcEntry.DecimalIgnoresCap | Apps/Calculator/main.py:72-79 | '.' after 15 digits makes the display 16 characters |
| AppsCalculator.Calculator.constructor | Apps/Calculator/main.py:13-18 | display "0", values 0, no operation, a new number due |
| AppsCalculator.Calculator.HandleDigit | Apps/Calculator/main.py:60-70 | the display and flag become `CalcEntry.Digit` of the old ones |
| AppsCalculator.Calculator.HandleDecimal | Apps/Calculator/main.py:72-79 | the display and flag become `CalcEntry.Decimal` of the old ones |
| AppsCalculator.Calculator.HandleEquals | Apps/Calculator/main.py:115-119 | without a pending operation '=' does nothing; with one the arithmetic step is due |
| AppsCalculator.Calculator.HandleClear | Apps/Calculator/main.py:121-127 | back to the start-up state |
| AppsCalculator.Calculator.HandleInput | Apps/Calculator/main.py:129-144 | q/Q and only they quit; each other key runs its handler; unknown keys change nothing |
| ProgramsCalculator.Calc.constructor | programs/Calculator/main.py:11-15 | display "0", no operator, stored 0, a new number due |
| ProgramsCalculator.Calc.Digit | programs/Calculator/main.py:33-38 | the display and flag become `CalcEntry.Digit` of the old ones |
| ProgramsCalculator.Calc.Decimal | programs/Calculator/main.py:40-46 | the display and flag become `CalcEntry.Decimal` of the old ones |
| ProgramsCalculator.Calc.Equals | programs/Calculator/main.py:72-75 | without a pending operator '=' does nothing; with one the arithmetic step is due |
| ProgramsCalculator.Calc.Clear | programs/Calculator/main.py:77-81 | back to the start-up state |
| ProgramsCalculator.Calc.Handle | programs/Calculator/main.py:83-90 | q/Q and only they quit; each other key runs its handler; unknown keys change nothing |
| MainShell.Interpret | main.py:29-53 | an empty line does nothing; only "shutdown" stops the shell, in any case; the output is an echo exactly when the normalised line starts with "echo ", and it echoes the rest of that line |
| MainShell.Normal | main.py:30 | the stripped line lower-cased: as long as the stripped line and free of capitals |
| MainShell.Shell.constructor | main.py:13-15 | running, empty buffer |
| MainShell.Shell.Dispatch | main.py:29-53 | the running flag and output are as `Interpret` says |
| MainShell.Shell.OnKey | main.py:17-27 | Enter dispatches the buffer and always empties it; other keys only edit it |
| MainShell.EchoIsLowerCase | main.py:30 | echoed text holds no upper-case letter |
| MainShell.BareEchoIsUnknown | main.py:30-44 | "echo " alone is stripped to "echo", which is unknown |
| MainShell.ShutdownInCapitals | main.py:30-47 | "SHUTDOWN" stops the shell |

## Left out

- File reading and writing in `build_image.py` (`open`, `sys.exit`, the progress prints) are replaced by `Option` inputs and an `Outcome` value. A missing file is `None`.
- `outb` and `update_cursor` (the hardware cursor through ports 0x3D4/0x3D5) have no effect on the modelled state.
- The interrupt handler that fills the keyboard ring runs concurrently. The ring's contents and write index are the state it leaves, and the model never writes to them.
- C `char` is signed; the model restricts console characters to ASCII (0-127), where sign extension does not arise.
- `kernel_main`'s start-up banner and its `hlt` wait are not modelled. One iteration of its loop is `KernelShell.Kernel.Step`.
- `reboot` is not modelled: it loads an empty interrupt table and raises interrupt 3, which resets the machine. `Execute` leaves the screen as it stands.
- The stack pointer read by inline assembly in `cmd_mem` is a parameter (`esp`).
- The MicroPython glue in `kernel_micropython.c` is not modelled: object conversion, module tables, heap, `mp_init`, error hooks, `kernel_main`, `halt` and `get_stack_pointer`. The `scutoid` functions that only forward to the console are modelled by the console methods they call.
- `python_main`, the `run` loops, `display`/`draw`, the prompt printing and every rendering call to `neonpulse` are left out. Each Python program is modelled from its key handler inward, and what a command prints is an `Output` event.
- `cmd_ls`/`do_ls` and `_list_installed_apps` read the file system. The listing is the abstract event `Listing(dir)`, and `apps` is `AppList`.
- `_get_apps_dir`, `env` and `history_index` are not modelled: the terminals never use them beyond initialisation.
- `save()` in both text editors writes a file and is not modelled.
- `PyStr.Join`: its own contract gives the empty and one-word cases and a length bound. The exact shape of a join of several words is stated by `JoinCons` and `JoinSnoc`.
- Whitespace is MicroPython's set for `strip()` and `split()` (space, tab, newline, vertical tab, form feed, carriage return). CPython's `str.isspace` also counts 0x1C-0x1F, 0x85, 0xA0 and the Unicode spaces; the two sets differ on no character the scancode table can produce.
- `PyStr.Lower`: lower-cases ASCII letters only. Python's `str.lower` also maps non-ASCII letters, which the terminals never receive from the scancode table.
- `AppsCalculator.Calculator.HandleInput`: an operator key returns `Arithmetic(Some(op))` and leaves the state unchanged. The floating-point step of `handle_operation` (lines 81-113) is not modelled, because Dafny has no IEEE floats and `str(float)` formatting is out of reach.
- `AppsCalculator.Calculator.HandleEquals`: with a pending operation it reports `Arithmetic(None)` instead of performing `handle_operation(None)`, for the same reason.
- `ProgramsCalculator.Calc.Handle`: an operator key returns `Arithmetic(Some(op))` and leaves the state unchanged. The floating-point step of `operate` (lines 48-70) is not modelled.
- `ProgramsCalculator.Calc.Equals`: with a pending operator it reports `Arithmetic(None)` instead of performing `operate(None)`.
