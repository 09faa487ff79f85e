TestResult.DisplayName,TestResult.Outcome,TestResult.Duration,TestResult.ResourceCount,RandomSeed
LegacyCapture.SimpleChain (well-formedness),Passed,00:00:00.9376928,2525785,2
