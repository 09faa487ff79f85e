TestResult.DisplayName,TestResult.Outcome,TestResult.Duration,TestResult.ResourceCount,RandomSeed
LegacyCapture.SimpleChain (well-formedness),Passed,00:00:01.1894005,2100342,1
